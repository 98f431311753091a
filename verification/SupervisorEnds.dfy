/** When the supervisor's run ends: which summaries keep it compacting, and for how long. */
module SupervisorEnds {
  import opened Text
  import opened Transcript
  import opened LiveContext
  import opened Supervisor
  import opened SupervisorRuns

  // ----- how many heads a run can have

  /** How many of the first n inputs bring a summary that does not fit. */
  function Misfits(o: Options, n: nat): nat {
    if n == 0 then 0 else Misfits(o, n - 1) + if Misfit(o, o.input(n - 1)) then 1 else 0
  }

  lemma {:induction false} NoMisfits(o: Options, n: nat)
    requires forall k: nat :: k < n ==> !Misfit(o, o.input(k))
    ensures Misfits(o, n) == 0
  {
    if n > 0 { NoMisfits(o, n - 1); }
  }

  /** Every pass sends or compacts, and two passes in a row compact only after a misfit. */
  lemma {:induction false} HeadsAreSteps(o: Options, first: Run, horizon: nat, heads: seq<Run>, r: Run,
      outcome: Outcome, i: nat)
    requires IsWatch(o, first, horizon, heads, r, outcome) && WithinBudgets(o, first) && i < |heads|
    ensures i <= 2 * heads[i].steps + 1 + Misfits(o, i)
    ensures i == 2 * heads[i].steps + 1 + Misfits(o, i) ==> !Over(o, heads[i])
  {
    if i > 0 {
      HeadsAreSteps(o, first, horizon, heads, r, outcome, i - 1);
      HeadKeeps(o, first, horizon, heads, r, outcome, i - 1);
    }
  }

  /** A run ends by itself within two heads a step, two more, and one more for every misfit. */
  lemma {:induction false} RunsEnd(o: Options, first: Run, horizon: nat, heads: seq<Run>, r: Run, outcome: Outcome)
    requires IsWatch(o, first, horizon, heads, r, outcome) && WithinBudgets(o, first)
    ensures |heads| <= 2 * o.maxSteps + 2 + Misfits(o, |heads|)
    ensures horizon > 2 * o.maxSteps + 2 + Misfits(o, horizon) ==> outcome != Running
    ensures (forall k: nat :: k < |heads| ==> !Misfit(o, o.input(k))) ==> |heads| <= 2 * o.maxSteps + 2
  {
    if heads != [] {
      HeadsAreSteps(o, first, horizon, heads, r, outcome, |heads| - 1);
      BudgetsHold(o, first, horizon, heads, r, outcome, |heads| - 1);
    }
    if forall k: nat :: k < |heads| ==> !Misfit(o, o.input(k)) { NoMisfits(o, |heads|); }
  }

  // ----- runs that never end

  /** The k-th head of a run, if the run gets there. */
  ghost function HeadAt(next: (nat, Run) -> Run, stops: (nat, Run) -> Option<Outcome>, first: Run,
      k: nat): Option<Run> {
    if k == 0 then Some(first)
    else
      match HeadAt(next, stops, first, k - 1)
      case None => None
      case Some(r) => if stops(k - 1, r).None? then Some(next(k - 1, r)) else None
  }

  /** Watching a run up to a horizon shows these heads, and stops where they do. */
  lemma {:induction false} WatchShowsHeads(o: Options, first: Run, horizon: nat, heads: seq<Run>, r: Run,
      outcome: Outcome)
    requires IsWatch(o, first, horizon, heads, r, outcome)
    ensures forall i: nat :: i < |heads| ==> HeadAt(Passes(o), Stops(o), first, i) == Some(heads[i])
    ensures HeadAt(Passes(o), Stops(o), first, |heads|) == if outcome == Running then Some(r) else None
  {
    var before := if outcome == Running then heads else heads[..|heads| - 1];
    forall i: nat | i < |heads| ensures HeadAt(Passes(o), Stops(o), first, i) == Some(heads[i]) {
      LinkedHeads(Passes(o), Stops(o), first, heads, r, before, i);
    }
    if outcome == Running {
      LinkedHeads(Passes(o), Stops(o), first, heads, r, heads, |heads|);
    }
  }

  lemma {:induction false} LinkedHeads(next: (nat, Run) -> Run, stops: (nat, Run) -> Option<Outcome>, first: Run,
      heads: seq<Run>, r: Run, before: seq<Run>, i: nat)
    requires Linked(next, first, heads, r) && before <= heads && NoStops(stops, before) && i <= |before|
    ensures HeadAt(next, stops, first, i) == Some(if i < |heads| then heads[i] else r)
  {
    if i > 0 {
      LinkedHeads(next, stops, first, heads, r, before, i - 1);
      assert stops(i - 1, before[i - 1]).None?;
      assert Follower(heads, r, i - 1) == next(i - 1, heads[i - 1]);
    }
  }

  ghost predicate NeverEnds(o: Options, first: Run) {
    Endless(Passes(o), Stops(o), first)
  }

  ghost predicate Endless(next: (nat, Run) -> Run, stops: (nat, Run) -> Option<Outcome>, first: Run) {
    forall k: nat :: Reaches(next, stops, first, k)
  }

  ghost predicate Reaches(next: (nat, Run) -> Run, stops: (nat, Run) -> Option<Outcome>, first: Run, k: nat) {
    HeadAt(next, stops, first, k).Some?
  }

  /** Nobody interferes at the k-th head, and a summary can be had. */
  predicate Hears(o: Options, k: nat) {
    !o.input(k).aborted && HasSummary(o.input(k))
  }

  /** From the n-th head on, which is over budget, nobody interferes and every summary is a misfit. */
  ghost predicate CompactsFrom(o: Options, first: Run, n: nat) {
    Compacts(o, HeadAt(Passes(o), Stops(o), first, n), n)
  }

  ghost predicate Compacts(o: Options, head: Option<Run>, n: nat) {
    head.Some? && Over(o, head.value) && forall k: nat :: k >= n ==> !o.input(k).aborted && Misfit(o, o.input(k))
  }

  /** What a pass that goes on does to the step count and the budget. */
  ghost predicate Goes(o: Options, k: nat, r: Run, r': Run, sent: bool) {
    && WithinBudgets(o, r') && r'.steps == r.steps + (if sent then 1 else 0)
    && (!sent ==> Over(o, r) && Hears(o, k) && (Over(o, r') <==> Misfit(o, o.input(k))))
    && (Over(o, r) ==> !sent)
  }

  /** A pass over budget goes on if a summary can be had, and any pass that goes on does what `Goes` says. */
  ghost predicate Behaves(o: Options, next: (nat, Run) -> Run, stops: (nat, Run) -> Option<Outcome>,
      sends: (nat, Run) -> bool) {
    && (forall k: nat, r: Run {:trigger next(k, r)} :: WithinBudgets(o, r) && stops(k, r).None? ==>
          Goes(o, k, r, next(k, r), sends(k, r)))
    && (forall k: nat, r: Run {:trigger stops(k, r)} :: Over(o, r) && Hears(o, k) ==> stops(k, r).None?)
  }

  function Sendings(o: Options): (nat, Run) -> bool {
    (k: nat, r: Run) => Sends(o, r, o.input(k))
  }

  lemma {:induction false} PassesBehave(o: Options)
    ensures Behaves(o, Passes(o), Stops(o), Sendings(o))
  {
    forall k: nat, r: Run | WithinBudgets(o, r) && Stops(o)(k, r).None?
      ensures Goes(o, k, r, Passes(o)(k, r), Sendings(o)(k, r))
    {
      PassGoes(o, k, r);
    }
  }

  lemma {:induction false} PassGoes(o: Options, k: nat, r: Run)
    requires WithinBudgets(o, r) && StopOf(o, r, o.input(k)).None?
    ensures Goes(o, k, r, Passed(o, r, o.input(k)), Sends(o, r, o.input(k)))
  {
    PassKeeps(o, r, o.input(k));
    if HasSummary(o.input(k)) { CompactedIsOver(o, r, o.input(k)); }
  }

  lemma {:induction false} HeadBudgets(o: Options, next: (nat, Run) -> Run, stops: (nat, Run) -> Option<Outcome>,
      sends: (nat, Run) -> bool, first: Run, k: nat)
    requires Behaves(o, next, stops, sends) && WithinBudgets(o, first) && HeadAt(next, stops, first, k).Some?
    ensures WithinBudgets(o, HeadAt(next, stops, first, k).value)
  {
    if k > 0 { HeadBudgets(o, next, stops, sends, first, k - 1); }
  }

  lemma {:induction false} EarlierHeads(next: (nat, Run) -> Run, stops: (nat, Run) -> Option<Outcome>, first: Run,
      n: nat, k: nat)
    requires HeadAt(next, stops, first, n).Some? && k <= n
    ensures HeadAt(next, stops, first, k).Some?
  {
    if k < n { EarlierHeads(next, stops, first, n - 1, k); }
  }

  lemma {:induction false} CompactingGoesOn(o: Options, next: (nat, Run) -> Run,
      stops: (nat, Run) -> Option<Outcome>, sends: (nat, Run) -> bool, first: Run, n: nat, k: nat)
    requires Behaves(o, next, stops, sends) && WithinBudgets(o, first) && k >= n
    requires Compacts(o, HeadAt(next, stops, first, n), n)
    ensures HeadAt(next, stops, first, k).Some? && Over(o, HeadAt(next, stops, first, k).value)
  {
    if k > n {
      CompactingGoesOn(o, next, stops, sends, first, n, k - 1);
      HeadBudgets(o, next, stops, sends, first, k - 1);
      var r := HeadAt(next, stops, first, k - 1).value;
      assert Hears(o, k - 1) && stops(k - 1, r).None?;
      assert Goes(o, k - 1, r, next(k - 1, r), sends(k - 1, r));
    }
  }

  /** A bounded count that goes up with every sending. */
  ghost predicate Counts(steps: nat -> nat, sent: nat -> bool, max: nat) {
    forall k: nat :: CountsAt(steps, sent, max, k)
  }

  ghost predicate CountsAt(steps: nat -> nat, sent: nat -> bool, max: nat, k: nat) {
    steps(k) <= max && steps(k + 1) == steps(k) + if sent(k) then 1 else 0
  }

  lemma {:induction false} StepsGrow(steps: nat -> nat, sent: nat -> bool, max: nat, m: nat, n: nat)
    requires Counts(steps, sent, max) && m <= n
    ensures steps(m) <= steps(n)
    decreases n - m
  {
    if m < n {
      assert CountsAt(steps, sent, max, m);
      StepsGrow(steps, sent, max, m + 1, n);
    }
  }

  /** It has a last one. */
  lemma {:induction false} LastSend(steps: nat -> nat, sent: nat -> bool, max: nat, k: nat) returns (n: nat)
    requires Counts(steps, sent, max)
    ensures forall j: nat :: j >= n ==> !sent(j)
    decreases max - steps(k)
  {
    if j: nat :| j >= k && sent(j) {
      StepsGrow(steps, sent, max, k, j);
      assert CountsAt(steps, sent, max, j) && CountsAt(steps, sent, max, j + 1);
      n := LastSend(steps, sent, max, j + 1);
    } else {
      n := k;
    }
  }

  /** The endless run goes on from head to head. */
  lemma {:induction false} EndlessGoes(o: Options, next: (nat, Run) -> Run, stops: (nat, Run) -> Option<Outcome>,
      sends: (nat, Run) -> bool, first: Run, k: nat)
    requires Behaves(o, next, stops, sends) && WithinBudgets(o, first) && Endless(next, stops, first)
    ensures Reaches(next, stops, first, k) && Reaches(next, stops, first, k + 1)
    ensures var r, r' := HeadAt(next, stops, first, k).value, HeadAt(next, stops, first, k + 1).value;
            WithinBudgets(o, r) && Goes(o, k, r, r', sends(k, r))
  {
    assert Reaches(next, stops, first, k) && Reaches(next, stops, first, k + 1);
    HeadBudgets(o, next, stops, sends, first, k);
  }

  ghost function StepsAt(next: (nat, Run) -> Run, stops: (nat, Run) -> Option<Outcome>, first: Run): nat -> nat {
    (k: nat) => match HeadAt(next, stops, first, k) case None => 0 case Some(r) => r.steps
  }

  ghost function SentAt(next: (nat, Run) -> Run, stops: (nat, Run) -> Option<Outcome>, sends: (nat, Run) -> bool,
      first: Run): nat -> bool {
    (k: nat) => match HeadAt(next, stops, first, k) case None => false case Some(r) => sends(k, r)
  }

  lemma {:induction false} EndlessCountsAt(o: Options, next: (nat, Run) -> Run,
      stops: (nat, Run) -> Option<Outcome>, sends: (nat, Run) -> bool, first: Run, k: nat)
    requires Behaves(o, next, stops, sends) && WithinBudgets(o, first) && Endless(next, stops, first)
    ensures CountsAt(StepsAt(next, stops, first), SentAt(next, stops, sends, first), o.maxSteps, k)
  {
    EndlessGoes(o, next, stops, sends, first, k);
    var r, r' := HeadAt(next, stops, first, k).value, HeadAt(next, stops, first, k + 1).value;
    assert StepsAt(next, stops, first)(k) == r.steps && StepsAt(next, stops, first)(k + 1) == r'.steps;
    assert SentAt(next, stops, sends, first)(k) == sends(k, r);
  }

  lemma {:induction false} EndlessCounts(o: Options, next: (nat, Run) -> Run, stops: (nat, Run) -> Option<Outcome>,
      sends: (nat, Run) -> bool, first: Run)
    requires Behaves(o, next, stops, sends) && WithinBudgets(o, first) && Endless(next, stops, first)
    ensures Counts(StepsAt(next, stops, first), SentAt(next, stops, sends, first), o.maxSteps)
  {
    forall k: nat ensures CountsAt(StepsAt(next, stops, first), SentAt(next, stops, sends, first), o.maxSteps, k) {
      EndlessCountsAt(o, next, stops, sends, first, k);
    }
  }

  lemma {:induction false} EndlessMisfits(o: Options, next: (nat, Run) -> Run, stops: (nat, Run) -> Option<Outcome>,
      sends: (nat, Run) -> bool, first: Run, k: nat)
    requires Behaves(o, next, stops, sends) && WithinBudgets(o, first) && Endless(next, stops, first)
    requires !SentAt(next, stops, sends, first)(k) && !SentAt(next, stops, sends, first)(k + 1)
    ensures Reaches(next, stops, first, k)
    ensures Over(o, HeadAt(next, stops, first, k).value) && !o.input(k).aborted && Misfit(o, o.input(k))
  {
    EndlessGoes(o, next, stops, sends, first, k);
    EndlessGoes(o, next, stops, sends, first, k + 1);
  }

  lemma {:induction false} EndlessCompacts(o: Options, next: (nat, Run) -> Run,
      stops: (nat, Run) -> Option<Outcome>, sends: (nat, Run) -> bool, first: Run) returns (n: nat)
    requires Behaves(o, next, stops, sends) && WithinBudgets(o, first) && Endless(next, stops, first)
    ensures Compacts(o, HeadAt(next, stops, first, n), n)
  {
    EndlessCounts(o, next, stops, sends, first);
    n := LastSend(StepsAt(next, stops, first), SentAt(next, stops, sends, first), o.maxSteps, 0);
    EndlessMisfits(o, next, stops, sends, first, n);
    forall k: nat | k >= n ensures !o.input(k).aborted && Misfit(o, o.input(k)) {
      EndlessMisfits(o, next, stops, sends, first, k);
    }
  }

  /** A run never ends exactly when from some head on, which is over budget, every summary it receives
      is over budget by itself and nobody interferes. */
  lemma {:induction false} NeverEndsIff(o: Options, first: Run)
    requires WithinBudgets(o, first)
    ensures NeverEnds(o, first) <==> exists n: nat :: CompactsFrom(o, first, n)
  {
    PassesBehave(o);
    if NeverEnds(o, first) {
      var n := EndlessCompacts(o, Passes(o), Stops(o), Sendings(o), first);
      assert CompactsFrom(o, first, n);
    }
    if n: nat :| CompactsFrom(o, first, n) {
      forall k: nat ensures Reaches(Passes(o), Stops(o), first, k) {
        if k <= n {
          EarlierHeads(Passes(o), Stops(o), first, n, k);
        } else {
          CompactingGoesOn(o, Passes(o), Stops(o), Sendings(o), first, n, k);
        }
      }
    }
  }

  // ----- with the estimator and the framing of the client

  function Chars(callsText: seq<ToolCall> -> string, ms: seq<Message>): nat {
    if ms == [] then 0
    else |ms[0].content| + (if ms[0].calls != [] then |callsText(ms[0].calls)| else 0) + Chars(callsText, ms[1..])
  }

  /** Four characters a token, rounded up; the estimate for the system prompt counts as characters. */
  function EstimateTokens(sysTokenEstimate: nat, callsText: seq<ToolCall> -> string, ms: seq<Message>): nat {
    (sysTokenEstimate + Chars(callsText, ms) + 3) / 4
  }

  /** Every message adds its text and its calls, and a token is four characters, rounded up. */
  lemma {:induction false} EstimateAddsUp(sysTokenEstimate: nat, callsText: seq<ToolCall> -> string, ms: seq<Message>,
      m: Message)
    ensures Chars(callsText, []) == 0
    ensures Chars(callsText, [m] + ms) ==
            |m.content| + (if m.calls == [] then 0 else |callsText(m.calls)|) + Chars(callsText, ms)
    ensures var n, total := EstimateTokens(sysTokenEstimate, callsText, ms), sysTokenEstimate + Chars(callsText, ms);
            4 * n - 3 <= total <= 4 * n
  {
    assert ([m] + ms)[1..] == ms;
  }

  const CHECKPOINT_REST :=
    " condensing an earlier span of the conversation to free up context. Treat the captured context as established" +
    " background and build on it without restating it. Continue the task directly from the messages that follow," +
    " without acknowledging this checkpoint."

  const SUMMARY_CLOSE_TAG := "</compacted-summary>"

  function FrameCompactedSummary(summary: string): string {
    PREAMBLE + CHECKPOINT_REST + "\n\n" + SUMMARY_TAG + "\n" + Trim(summary) + "\n" + SUMMARY_CLOSE_TAG
  }

  /** The estimator and the framing are the client's. */
  ghost predicate AsInClient(o: Options, sysTokenEstimate: nat, callsText: seq<ToolCall> -> string) {
    && (forall ms :: o.estimate(ms) == EstimateTokens(sysTokenEstimate, callsText, ms))
    && (forall summary :: o.frame(summary) == FrameCompactedSummary(summary))
  }

  lemma {:induction false} FrameLength(summary: string)
    ensures |FrameCompactedSummary(summary)| == |FrameCompactedSummary("")| + |Trim(summary)|
  {
  }

  lemma {:induction false} SummaryTokens(sysTokenEstimate: nat, callsText: seq<ToolCall> -> string, summary: string)
    ensures EstimateTokens(sysTokenEstimate, callsText,
                           [UserNote("Compaction Summary", FrameCompactedSummary(summary))]) ==
            (sysTokenEstimate + |FrameCompactedSummary("")| + |Trim(summary)| + 3) / 4
  {
    FrameLength(summary);
    OneMessage(callsText, UserNote("Compaction Summary", FrameCompactedSummary(summary)));
  }

  /** Then a misfit is a summary of a certain length. */
  lemma {:induction false} MisfitsAreLong(o: Options, sysTokenEstimate: nat, callsText: seq<ToolCall> -> string,
      input: HeadInput)
    requires AsInClient(o, sysTokenEstimate, callsText) && HasSummary(input)
    ensures var tokens := (sysTokenEstimate + |FrameCompactedSummary("")| + |Trim(input.summary.value)| + 3) / 4;
            Misfit(o, input) <==>
              o.maxContext > 0 && (tokens as real >= o.compactAt * o.maxContext as real || tokens >= o.maxContext)
  {
    SummaryTokens(sysTokenEstimate, callsText, input.summary.value);
  }

  lemma {:induction false} OneMessage(callsText: seq<ToolCall> -> string, m: Message)
    requires m.calls == []
    ensures Chars(callsText, [m]) == |m.content|
  {
    assert [m][1..] == [];
  }

  /** If every summary is as long as that, a run that starts over budget compacts for ever. */
  lemma {:induction false} LongSummariesLoop(o: Options, first: Run, sysTokenEstimate: nat,
      callsText: seq<ToolCall> -> string)
    requires AsInClient(o, sysTokenEstimate, callsText) && o.maxContext > 0 && WithinBudgets(o, first) && Over(o, first)
    requires forall k: nat ::
               && !o.input(k).aborted && HasSummary(o.input(k))
               && |Trim(o.input(k).summary.value)| >= 4 * o.maxContext
    ensures NeverEnds(o, first)
  {
    forall k: nat ensures Misfit(o, o.input(k)) { MisfitsAreLong(o, sysTokenEstimate, callsText, o.input(k)); }
    assert CompactsFrom(o, first, 0);
    NeverEndsIff(o, first);
  }

  // ----- one run that loops, one that ends

  function Summarized(text: string): HeadInput {
    HeadInput(false, Some(text), false, "", (i: nat) => None, false, (k: nat) => None, "", None, [], false, None, "",
      None)
  }

  function NoText(calls: seq<ToolCall>): string {
    ""
  }

  /** An engine with a context of 2,048 tokens, compacted at 80 percent, and the same summary every time. */
  function Client(summary: string): Options {
    Options(2_048, 0.8, 40, false, false, false, (ms: seq<Message>) => EstimateTokens(0, NoText, ms),
            FrameCompactedSummary, (k: nat) => Summarized(summary))
  }

  function Xs(n: nat): string {
    seq(n, i => 'x')
  }

  lemma {:induction false} XsTrim(n: nat)
    ensures Trim(Xs(n)) == Xs(n)
  {
  }

  /** Summaries of 7,000 characters, about 1,750 tokens, are too long for it: whatever a run starts from, once
      over budget it never ends. */
  lemma {:induction false} ALongSummaryLoops(first: Run)
    requires WithinBudgets(Client(Xs(7_000)), first) && Over(Client(Xs(7_000)), first)
    ensures AsInClient(Client(Xs(7_000)), 0, NoText) && NeverEnds(Client(Xs(7_000)), first)
  {
    var o := Client(Xs(7_000));
    XsTrim(7_000);
    forall k: nat ensures Misfit(o, o.input(k)) {
      MisfitsAreLong(o, 0, NoText, o.input(k));
    }
    assert CompactsFrom(o, first, 0);
    NeverEndsIff(o, first);
  }

  /** With a short one every run is over after 82 heads at most. */
  lemma {:induction false} AShortSummaryEnds(first: Run, horizon: nat, heads: seq<Run>, r: Run, outcome: Outcome)
    requires WithinBudgets(Client("done"), first) && IsWatch(Client("done"), first, horizon, heads, r, outcome)
    ensures |heads| <= 82
  {
    var o := Client("done");
    forall k: nat ensures !Misfit(o, o.input(k)) {
      MisfitsAreLong(o, 0, NoText, o.input(k));
      assert |CHECKPOINT_REST| <= 400;
    }
    RunsEnd(o, first, horizon, heads, r, outcome);
  }

  /** Such a start: the last request was counted at the whole context. */
  lemma {:induction false} AFullStart(summary: string)
    ensures var first := Run([], [], 0, 2_048, 0, 0, 0, 0);
            WithinBudgets(Client(summary), first) && Over(Client(summary), first)
  {
  }
}
