/** Whole runs of the supervisor, watched from loop head to loop head. */
module SupervisorRuns {
  import opened Text
  import opened Transcript
  import opened LiveContext
  import opened Supervisor

  function Passes(o: Options): (nat, Run) -> Run {
    (k: nat, r: Run) => Passed(o, r, o.input(k))
  }

  function Stops(o: Options): (nat, Run) -> Option<Outcome> {
    (k: nat, r: Run) => StopOf(o, r, o.input(k))
  }

  function Requests(o: Options): (nat, Run) -> seq<seq<Ref>> {
    (k: nat, r: Run) => SentBy(o, r, o.input(k))
  }

  /** Consecutive heads are one pass apart, and `r` is one pass after the last of them. */
  ghost predicate Linked(next: (nat, Run) -> Run, first: Run, heads: seq<Run>, r: Run) {
    && (if heads != [] then heads[0] else r) == first
    && forall i: nat {:trigger Follower(heads, r, i)} :: i < |heads| ==> Follower(heads, r, i) == next(i, heads[i])
  }

  ghost function Follower(heads: seq<Run>, r: Run, i: nat): Run
    requires i < |heads|
  {
    if i + 1 < |heads| then heads[i + 1] else r
  }

  ghost predicate NoStops(stops: (nat, Run) -> Option<Outcome>, heads: seq<Run>) {
    forall i: nat {:trigger stops(i, heads[i])} :: i < |heads| ==> stops(i, heads[i]).None?
  }

  /** What the passes from these heads sent. */
  ghost function SentFrom(sends: (nat, Run) -> seq<seq<Ref>>, heads: seq<Run>): seq<seq<Ref>> {
    if heads == [] then []
    else
      var n := |heads| - 1;
      SentFrom(sends, heads[..n]) + sends(n, heads[n])
  }

  /** A run that nothing has stopped yet: its heads so far, what follows the last, and what was sent. */
  ghost predicate Watching(next: (nat, Run) -> Run, stops: (nat, Run) -> Option<Outcome>,
      sends: (nat, Run) -> seq<seq<Ref>>, first: Run, heads: seq<Run>, r: Run, requests: seq<seq<Ref>>) {
    Linked(next, first, heads, r) && NoStops(stops, heads) && requests == SentFrom(sends, heads)
  }

  lemma {:induction false} OneMoreHead(next: (nat, Run) -> Run, sends: (nat, Run) -> seq<seq<Ref>>, first: Run,
      heads: seq<Run>, r: Run)
    requires Linked(next, first, heads, r)
    ensures Linked(next, first, heads + [r], next(|heads|, r))
    ensures SentFrom(sends, heads + [r]) == SentFrom(sends, heads) + sends(|heads|, r)
  {
    var more, r' := heads + [r], next(|heads|, r);
    assert more[..|heads|] == heads;
    forall i: nat | i < |more| ensures Follower(more, r', i) == next(i, more[i]) {
      if i < |heads| { assert Follower(more, r', i) == Follower(heads, r, i); }
    }
  }

  lemma {:induction false} RunGoesOn(next: (nat, Run) -> Run, stops: (nat, Run) -> Option<Outcome>,
      sends: (nat, Run) -> seq<seq<Ref>>, first: Run, heads: seq<Run>, r: Run, requests: seq<seq<Ref>>)
    requires Watching(next, stops, sends, first, heads, r, requests) && stops(|heads|, r).None?
    ensures Watching(next, stops, sends, first, heads + [r], next(|heads|, r), requests + sends(|heads|, r))
  {
    OneMoreHead(next, sends, first, heads, r);
  }

  lemma {:induction false} RunStops(next: (nat, Run) -> Run, stops: (nat, Run) -> Option<Outcome>,
      sends: (nat, Run) -> seq<seq<Ref>>, first: Run, horizon: nat, heads: seq<Run>, r: Run,
      requests: seq<seq<Ref>>, outcome: Outcome)
    requires Watching(next, stops, sends, first, heads, r, requests) && |heads| < horizon
    requires stops(|heads|, r) == Some(outcome) && outcome != Running
    ensures IsWatchOf(next, stops, first, horizon, heads + [r], next(|heads|, r), outcome)
    ensures requests + sends(|heads|, r) == SentFrom(sends, heads + [r])
  {
    OneMoreHead(next, sends, first, heads, r);
    assert (heads + [r])[..|heads|] == heads;
  }

  /** The run as seen up to `horizon` loop heads: its variables at each head, of which only the last
      may stop it. */
  ghost predicate IsWatchOf(next: (nat, Run) -> Run, stops: (nat, Run) -> Option<Outcome>, first: Run, horizon: nat,
      heads: seq<Run>, r: Run, outcome: Outcome) {
    && Linked(next, first, heads, r)
    && |heads| <= horizon
    && if outcome == Running then |heads| == horizon && NoStops(stops, heads)
       else
         && heads != [] && NoStops(stops, heads[..|heads| - 1])
         && stops(|heads| - 1, heads[|heads| - 1]) == Some(outcome)
  }

  ghost predicate IsWatch(o: Options, first: Run, horizon: nat, heads: seq<Run>, r: Run, outcome: Outcome) {
    IsWatchOf(Passes(o), Stops(o), first, horizon, heads, r, outcome)
  }

  method RunAgent(o: Options, initial: seq<Ref>, transcript: seq<Ref>, nextId: nat, tokens: nat, horizon: nat)
    returns (r: Run, outcome: Outcome, heads: seq<Run>, requests: seq<seq<Ref>>)
    ensures IsWatch(o, Run(initial, transcript, nextId, tokens, 0, 0, 0, 0), horizon, heads, r, outcome)
    ensures requests == SentFrom(Requests(o), heads)
  {
    r := Run(initial, transcript, nextId, tokens, 0, 0, 0, 0);
    ghost var first := r;
    heads, requests := [], [];
    for k := 0 to horizon
      invariant |heads| == k && Watching(Passes(o), Stops(o), Requests(o), first, heads, r, requests)
    {
      ghost var at, before, sentBefore := r, heads, requests;
      var sent, stop;
      heads := heads + [r];
      r, sent, stop := Head(o, r, o.input(k));
      requests := requests + sent;
      if stop.Some? {
        RunStops(Passes(o), Stops(o), Requests(o), first, horizon, before, at, sentBefore, stop.value);
        return r, stop.value, heads, requests;
      }
      RunGoesOn(Passes(o), Stops(o), Requests(o), first, before, at, sentBefore);
    }
    return r, Running, heads, requests;
  }

  // ----- what every run keeps

  lemma {:induction false} NextHead(o: Options, first: Run, horizon: nat, heads: seq<Run>, r: Run, outcome: Outcome,
      i: nat)
    requires IsWatch(o, first, horizon, heads, r, outcome) && i + 1 < |heads|
    ensures heads[i + 1] == Passed(o, heads[i], o.input(i)) && StopOf(o, heads[i], o.input(i)).None?
  {
    assert Follower(heads, r, i) == Passes(o)(i, heads[i]);
    assert heads[..|heads| - 1][i] == heads[i];
    assert Stops(o)(i, heads[i]).None?;
  }

  /** Streamed steps, repairs, critic rounds and continuations never exceed their budgets. */
  lemma {:induction false} BudgetsHold(o: Options, first: Run, horizon: nat, heads: seq<Run>, r: Run, outcome: Outcome,
      i: nat)
    requires IsWatch(o, first, horizon, heads, r, outcome) && WithinBudgets(o, first) && i < |heads|
    ensures WithinBudgets(o, heads[i])
  {
    if i > 0 {
      BudgetsHold(o, first, horizon, heads, r, outcome, i - 1);
      NextHead(o, first, horizon, heads, r, outcome, i - 1);
      PassKeeps(o, heads[i - 1], o.input(i - 1));
    }
  }

  lemma {:induction false} BudgetsHoldAtTheEnd(o: Options, first: Run, horizon: nat, heads: seq<Run>, r: Run,
      outcome: Outcome)
    requires IsWatch(o, first, horizon, heads, r, outcome) && WithinBudgets(o, first)
    ensures WithinBudgets(o, r)
  {
    if heads != [] {
      var n := |heads| - 1;
      BudgetsHold(o, first, horizon, heads, r, outcome, n);
      PassKeeps(o, heads[n], o.input(n));
      assert Follower(heads, r, n) == Passes(o)(n, heads[n]);
    }
  }

  lemma {:induction false} ToolMessagesArePlain(o: Options, k: nat)
    requires ToolsAnswer(o)
    ensures PlainMessages(o.input(k).toolMessages)
  {
  }

  /** From one head to the next. */
  lemma {:induction false} HeadKeeps(o: Options, first: Run, horizon: nat, heads: seq<Run>, r: Run, outcome: Outcome,
      i: nat)
    requires IsWatch(o, first, horizon, heads, r, outcome) && WithinBudgets(o, first) && i + 1 < |heads|
    ensures heads[i + 1].steps == heads[i].steps + (if Sends(o, heads[i], o.input(i)) then 1 else 0)
    ensures !Sends(o, heads[i], o.input(i)) ==> Over(o, heads[i]) && (Over(o, heads[i + 1]) <==> Misfit(o, o.input(i)))
    ensures Sync(heads[i]) && ToolsAnswer(o) ==> Sync(heads[i + 1])
    ensures Sync(heads[i]) && Sends(o, heads[i], o.input(i)) ==> Asked(heads[i], o.input(i)).live <= heads[i + 1].live
  {
    BudgetsHold(o, first, horizon, heads, r, outcome, i);
    NextHead(o, first, horizon, heads, r, outcome, i);
    PassKeeps(o, heads[i], o.input(i));
    if ToolsAnswer(o) { ToolMessagesArePlain(o, i); }
    if HasSummary(o.input(i)) { CompactedIsOver(o, heads[i], o.input(i)); }
  }

  /** At every head of the loop, loading the persisted transcript gives the live context. */
  lemma {:induction false} EveryHeadReloads(o: Options, first: Run, horizon: nat, heads: seq<Run>, r: Run,
      outcome: Outcome, i: nat)
    requires IsWatch(o, first, horizon, heads, r, outcome) && WithinBudgets(o, first) && ToolsAnswer(o)
    requires Sync(first) && i < |heads|
    ensures Sync(heads[i])
  {
    if i > 0 {
      EveryHeadReloads(o, first, horizon, heads, r, outcome, i - 1);
      HeadKeeps(o, first, horizon, heads, r, outcome, i - 1);
    }
  }

  /** Packing left the history as it was. */
  predicate Unpacked(r: Run, input: HeadInput) {
    !Repacked(r.(steps := r.steps + 1), input)
  }

  lemma {:induction false} RequestStep(o: Options, first: Run, horizon: nat, heads: seq<Run>, r: Run, outcome: Outcome,
      i: nat)
    requires IsWatch(o, first, horizon, heads, r, outcome) && WithinBudgets(o, first) && ToolsAnswer(o) && Sync(first)
    requires i + 1 < |heads| && Sends(o, heads[i], o.input(i)) && Unpacked(heads[i + 1], o.input(i + 1))
    ensures AskedAt(o, heads)(i) <= AskedAt(o, heads)(i + 1)
  {
    EveryHeadReloads(o, first, horizon, heads, r, outcome, i);
    HeadKeeps(o, first, horizon, heads, r, outcome, i);
    PreparedKeeps(heads[i + 1].(steps := heads[i + 1].steps + 1), o.input(i + 1));
  }

  lemma {:induction false} SendsAgain(o: Options, first: Run, horizon: nat, heads: seq<Run>, r: Run, outcome: Outcome,
      i: nat)
    requires IsWatch(o, first, horizon, heads, r, outcome) && WithinBudgets(o, first)
    requires i + 1 < |heads| && !Over(o, heads[i])
    ensures Sends(o, heads[i], o.input(i))
  {
    HeadKeeps(o, first, horizon, heads, r, outcome, i);
  }

  ghost predicate Uncompacted(o: Options, heads: seq<Run>, i: nat, j: nat) {
    forall k: nat :: i < k < j && k < |heads| ==> !Over(o, heads[k])
  }

  ghost predicate NonePacked(o: Options, heads: seq<Run>, i: nat, j: nat) {
    forall k: nat :: i < k <= j && k < |heads| ==> Unpacked(heads[k], o.input(k))
  }

  /** Without compaction or packing between them, a later request extends an earlier one. */
  lemma {:induction false} RequestsExtend(o: Options, first: Run, horizon: nat, heads: seq<Run>, r: Run,
      outcome: Outcome, i: nat, j: nat)
    requires IsWatch(o, first, horizon, heads, r, outcome) && WithinBudgets(o, first) && ToolsAnswer(o) && Sync(first)
    requires i < j < |heads| && Sends(o, heads[i], o.input(i)) && Uncompacted(o, heads, i, j) &&
             NonePacked(o, heads, i, j)
    ensures Asked(heads[i], o.input(i)).live <= Asked(heads[j], o.input(j)).live
  {
    forall k: nat | i <= k < j ensures AskedAt(o, heads)(k) <= AskedAt(o, heads)(k + 1) {
      RequestGrows(o, first, horizon, heads, r, outcome, i, j, k);
    }
    Chain(AskedAt(o, heads), i, j);
  }

  lemma {:induction false} RequestGrows(o: Options, first: Run, horizon: nat, heads: seq<Run>, r: Run,
      outcome: Outcome, i: nat, j: nat, k: nat)
    requires IsWatch(o, first, horizon, heads, r, outcome) && WithinBudgets(o, first) && ToolsAnswer(o) && Sync(first)
    requires i <= k < j < |heads| && Sends(o, heads[i], o.input(i)) && Uncompacted(o, heads, i, j) &&
             NonePacked(o, heads, i, j)
    ensures AskedAt(o, heads)(k) <= AskedAt(o, heads)(k + 1)
  {
    if i < k { SendsAgain(o, first, horizon, heads, r, outcome, k); }
    RequestStep(o, first, horizon, heads, r, outcome, k);
  }

  ghost function AskedAt(o: Options, heads: seq<Run>): nat -> seq<Ref> {
    (k: nat) => if k < |heads| then Asked(heads[k], o.input(k)).live else []
  }

  lemma {:induction false} Chain(q: nat -> seq<Ref>, i: nat, j: nat)
    requires i <= j && forall k: nat :: i <= k < j ==> q(k) <= q(k + 1)
    ensures q(i) <= q(j)
    decreases j - i
  {
    if i < j { Chain(q, i + 1, j); }
  }

  /** After a compaction the context is over budget exactly if the summary alone is. */
  lemma {:induction false} CompactedIsOver(o: Options, r: Run, input: HeadInput)
    requires HasSummary(input)
    ensures Over(o, Compact(r, o.frame(input.summary.value))) <==> Misfit(o, input)
  {
    assert Contents(Compact(r, o.frame(input.summary.value)).live) ==
           [UserNote("Compaction Summary", o.frame(input.summary.value))];
  }
}
