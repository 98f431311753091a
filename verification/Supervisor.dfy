/** One pass through the supervisor's loop: compaction, packing, the stream, the reply and the gates.
    What the model, the tools, packing and the gates produce are inputs, one `HeadInput` a pass. */
module Supervisor {
  import opened Text
  import opened Transcript
  import opened LiveContext

  datatype Turn = Turn(content: string, calls: seq<ToolCall>, cutOff: bool, promptTokens: Option<nat>)

  datatype HeadInput = HeadInput(
    aborted: bool,
    summary: Option<string>,
    summaryAborted: bool,
    context: string,
    pack: nat -> Option<string>,
    streamAborted: bool,
    attempt: nat -> Option<Turn>,
    errorDetail: string,
    humanized: Option<string>,
    toolMessages: seq<Message>,
    asksUser: bool,
    failingChecks: Option<string>,
    diff: string,
    rejection: Option<string>)

  datatype Options = Options(
    maxContext: nat,
    compactAt: real,
    maxSteps: nat,
    humanize: bool,
    verifyMode: bool,
    criticMode: bool,
    estimate: seq<Message> -> nat,
    frame: string -> string,
    input: nat -> HeadInput)

  datatype Outcome = Running | Stopped | NoSummary | StepLimit | StreamFailed | NoReply | Paused | Finished

  const MAX_ATTEMPTS := 3
  const MAX_REPAIR := 3
  const MAX_CRITIC := 2
  const MAX_CONTINUE := 4

  predicate OverBudget(o: Options, tokens: nat, est: nat) {
    && o.maxContext > 0
    && ((if tokens >= est then tokens else est) as real >= o.compactAt * o.maxContext as real || est >= o.maxContext)
  }

  // ----- the messages the run writes

  // Of the fixed texts only the opening words are kept.

  function ContinueNote(): Message {
    UserNote("Continue", "Continue your previous response")
  }

  function VerifyNote(summary: string): Message {
    UserNote("Verify", "VERIFICATION GATE" + summary)
  }

  function CriticNote(issues: string): Message {
    UserNote("Critic", "CODE REVIEW REJECTED" + issues)
  }

  function SystemNotice(text: string): Message {
    Message(System, text, [], None, None, None, false)
  }

  function FailureNotice(): Message {
    Message(Assistant, "[Run failed", [], None, None, Some("System"), false)
  }

  /** None of them reads as a checkpoint, whatever text they carry. */
  lemma {:induction false} OwnMessagesArePlain(text: string, calls: seq<ToolCall>)
    ensures PlainMessages(ContextNote(text)) && !IsCheckpoint(ContinueNote()) && !IsCheckpoint(VerifyNote(text))
    ensures !IsCheckpoint(CriticNote(text)) && !IsCheckpoint(SystemNotice(text)) &&
            !IsCheckpoint(AssistantMessage(text, calls))
  {
    assert "[System context for this turn"[0] == '[';
    FirstCharacter(CONTEXT_OPEN + text);
    FirstCharacter(ContinueNote().content);
    FirstCharacter(VerifyNote(text).content);
    FirstCharacter(CriticNote(text).content);
  }

  lemma {:induction false} FirstCharacter(content: string)
    requires content != "" && !IsJsSpace(content[0]) && content[0] != '<' && content[0] != 'T'
    ensures !(SUMMARY_TAG <= TrimStart(content)) && !(PREAMBLE <= TrimStart(content))
  {
    assert TrimStart(content)[0] == content[0];
    assert "This is"[0] == 'T';  // a shorter text that the longer one starts with
    assert SUMMARY_TAG[0] == '<' && PREAMBLE[0] == 'T';
  }

  // ----- one pass through the loop

  predicate Repacks(r: Run, input: HeadInput) {
    Packed(r.live, r.nextId, input.pack) != r.live
  }

  /** The context note added, and the history packed if packing changes anything. */
  function Prepared(r: Run, input: HeadInput): Run {
    var told := Push(r, ContextNote(input.context));
    if Repacks(told, input) then Pack(told, input.pack) else told
  }

  /** The first of three attempts that yields a turn. */
  function Streamed(attempt: nat -> Option<Turn>): Option<Turn> {
    if attempt(0).Some? then attempt(0) else if attempt(1).Some? then attempt(1) else attempt(2)
  }

  predicate Humanizes(o: Options, input: HeadInput, turn: Turn) {
    && o.humanize && turn.calls == [] && !Blank(turn.content)
    && input.humanized.Some? && Trim(input.humanized.value) != Trim(turn.content)
  }

  /** The reply appended, and rewritten if the humanize gate has a different text. */
  function Taken(o: Options, r: Run, input: HeadInput, turn: Turn): Run {
    var reply := AssistantMessage(turn.content, turn.calls);
    var told := Push(r, [reply]);
    if Humanizes(o, input, turn) then Rewrite(told, Ref(r.nextId, reply), input.humanized.value) else told
  }

  predicate FailsChecks(o: Options, r: Run, input: HeadInput) {
    o.verifyMode && r.repairs < MAX_REPAIR && input.failingChecks.Some?
  }

  predicate IsRejected(o: Options, r: Run, input: HeadInput) {
    o.criticMode && r.critics < MAX_CRITIC && !Blank(input.diff) && input.rejection.Some?
  }

  predicate CutOff(r: Run, turn: Turn) {
    turn.cutOff && r.continues < MAX_CONTINUE
  }

  function Clipped(summary: string): string {
    summary[..if |summary| < 2500 then |summary| else 2500]
  }

  /** After the reply: its calls answered, or a nudge if one of the gates wants another round. */
  function Followed(o: Options, r: Run, input: HeadInput, turn: Turn): Run {
    if turn.calls != [] then Push(r, input.toolMessages)
    else if CutOff(r, turn) then Push(r.(continues := r.continues + 1), [ContinueNote()])
    else if FailsChecks(o, r, input) then
      Push(r.(repairs := r.repairs + 1), [VerifyNote(Clipped(input.failingChecks.value))])
    else if IsRejected(o, r, input) then Push(r.(critics := r.critics + 1), [CriticNote(input.rejection.value)])
    else r
  }

  function StopAfter(o: Options, r: Run, input: HeadInput, turn: Turn): Option<Outcome> {
    if turn.calls != [] then if input.asksUser then Some(Paused) else None
    else if CutOff(r, turn) || FailsChecks(o, r, input) || IsRejected(o, r, input) then None
    else Some(Finished)
  }

  predicate SaysNothing(turn: Turn) {
    Blank(turn.content) && turn.calls == []
  }

  function Conversed(o: Options, r: Run, input: HeadInput, est: nat, turn: Turn): Run {
    var counted := r.(tokens := Or(turn.promptTokens, est));
    if SaysNothing(turn) then Push(counted, [AssistantMessage(input.errorDetail, [])])
    else Followed(o, Taken(o, counted, input, turn), input, turn)
  }

  function StopConversed(o: Options, r: Run, input: HeadInput, est: nat, turn: Turn): Option<Outcome> {
    var counted := r.(tokens := Or(turn.promptTokens, est));
    if SaysNothing(turn) then Some(NoReply) else StopAfter(o, Taken(o, counted, input, turn), input, turn)
  }

  predicate Over(o: Options, r: Run) {
    OverBudget(o, r.tokens, o.estimate(Contents(r.live)))
  }

  predicate HasSummary(input: HeadInput) {
    input.summary.Some? && input.summary.value != ""
  }

  /** A summary that is over budget all by itself. */
  predicate Misfit(o: Options, input: HeadInput) {
    HasSummary(input) && OverBudget(o, 0, o.estimate([UserNote("Compaction Summary", o.frame(input.summary.value))]))
  }

  /** Why the pass ends before anything is sent, if it does. */
  function StopBefore(o: Options, r: Run, input: HeadInput): Option<Outcome> {
    if input.aborted then Some(Stopped)
    else if Over(o, r) then if HasSummary(input) then None else Some(NoSummary)
    else if r.steps >= o.maxSteps then Some(StepLimit)
    else None
  }

  predicate Sends(o: Options, r: Run, input: HeadInput) {
    StopBefore(o, r, input).None? && !Over(o, r)
  }

  function Asked(r: Run, input: HeadInput): Run {
    Prepared(r.(steps := r.steps + 1), input)
  }

  /** After the request went out and a turn came back, or none did. */
  function Exchanged(o: Options, r: Run, input: HeadInput): Run {
    if input.streamAborted then Asked(r, input)
    else
      match Streamed(input.attempt)
      case None => Note(Asked(r, input), FailureNotice())
      case Some(turn) => Conversed(o, Asked(r, input), input, o.estimate(Contents(r.live)), turn)
  }

  function StopExchanged(o: Options, r: Run, input: HeadInput): Option<Outcome> {
    if input.streamAborted then Some(Stopped)
    else
      match Streamed(input.attempt)
      case None => Some(StreamFailed)
      case Some(turn) => StopConversed(o, Asked(r, input), input, o.estimate(Contents(r.live)), turn)
  }

  function SentBy(o: Options, r: Run, input: HeadInput): seq<seq<Ref>> {
    if Sends(o, r, input) then [Asked(r, input).live] else []
  }

  /** The loop's variables after the pass. */
  function Passed(o: Options, r: Run, input: HeadInput): Run {
    if input.aborted then r
    else if Over(o, r) then
      if HasSummary(input) then Compact(r, o.frame(input.summary.value))
      else if input.summaryAborted then r
      else Note(r, SystemNotice("Auto-compaction failed"))
    else if r.steps >= o.maxSteps then Note(r, SystemNotice("Reached the maximum number of agent steps"))
    else Exchanged(o, r, input)
  }

  function StopOf(o: Options, r: Run, input: HeadInput): Option<Outcome> {
    if Sends(o, r, input) then StopExchanged(o, r, input) else StopBefore(o, r, input)
  }

  // ----- the loop

  /** The first attempt that yields a turn, of at most three. */
  method StreamWithRetries(attempt: nat -> Option<Turn>) returns (turn: Option<Turn>, attempts: nat)
    ensures turn == Streamed(attempt) && attempts <= MAX_ATTEMPTS
    ensures turn.Some? ==> 0 < attempts && turn == attempt(attempts - 1)
  {
    attempts, turn := 0, None;
    while turn.None? && attempts < MAX_ATTEMPTS
      invariant attempts <= MAX_ATTEMPTS
      invariant turn.None? ==> forall k: nat :: k < attempts ==> attempt(k).None?
      invariant turn.Some? ==> 0 < attempts && turn == attempt(attempts - 1)
      invariant turn.Some? ==> forall k: nat :: k < attempts - 1 ==> attempt(k).None?
    {
      turn := attempt(attempts);
      attempts := attempts + 1;
    }
  }

  /** Before the request: add the context note, adopt the packed history. */
  method PrepareRequest(before: Run, input: HeadInput) returns (r: Run)
    ensures r == Prepared(before, input)
  {
    r := Push(before, ContextNote(input.context));
    if Packed(r.live, r.nextId, input.pack) != r.live {
      r := Pack(r, input.pack);
    }
  }

  /** Take the reply in, rewritten if the humanize gate changed it. */
  method TakeReply(o: Options, before: Run, input: HeadInput, turn: Turn) returns (r: Run)
    ensures r == Taken(o, before, input, turn)
  {
    var reply := AssistantMessage(turn.content, turn.calls);
    r := Push(before, [reply]);
    if o.humanize && turn.calls == [] && !Blank(turn.content) && input.humanized.Some? {
      var text := input.humanized.value;
      if Trim(text) != Trim(turn.content) {
        r := Rewrite(r, Ref(before.nextId, reply), text);
      }
    }
  }

  /** After the reply: run its calls, or go through the gates. `None` means another round. */
  method AfterReply(o: Options, before: Run, input: HeadInput, turn: Turn) returns (r: Run, stop: Option<Outcome>)
    ensures r == Followed(o, before, input, turn) && stop == StopAfter(o, before, input, turn)
  {
    r := before;
    if turn.calls != [] {
      r := Push(r, input.toolMessages);
      return r, if input.asksUser then Some(Paused) else None;
    }
    if turn.cutOff && r.continues < MAX_CONTINUE {
      r := Push(r.(continues := r.continues + 1), [ContinueNote()]);
      return r, None;
    }
    var bounced := false;
    if o.verifyMode && r.repairs < MAX_REPAIR && input.failingChecks.Some? {
      var summary := Clipped(input.failingChecks.value);
      r := Push(r.(repairs := r.repairs + 1), [VerifyNote(summary)]);
      bounced := true;
    }
    if !bounced && o.criticMode && r.critics < MAX_CRITIC && !Blank(input.diff) && input.rejection.Some? {
      r := Push(r.(critics := r.critics + 1), [CriticNote(input.rejection.value)]);
      bounced := true;
    }
    return r, if bounced then None else Some(Finished);
  }

  /** From a streamed turn to the next head of the loop. */
  method Converse(o: Options, before: Run, input: HeadInput, est: nat, turn: Turn)
    returns (r: Run, stop: Option<Outcome>)
    ensures r == Conversed(o, before, input, est, turn) && stop == StopConversed(o, before, input, est, turn)
  {
    r := before.(tokens := Or(turn.promptTokens, est));
    if Blank(turn.content) && turn.calls == [] {
      r := Push(r, [AssistantMessage(input.errorDetail, [])]);
      return r, Some(NoReply);
    }
    r := TakeReply(o, r, input, turn);
    r, stop := AfterReply(o, r, input, turn);
  }

  /** The part of a pass that sends a request and takes in what comes back. */
  method Exchange(o: Options, before: Run, input: HeadInput, est: nat)
    returns (r: Run, sent: seq<seq<Ref>>, stop: Option<Outcome>)
    requires est == o.estimate(Contents(before.live))
    ensures r == Exchanged(o, before, input) && stop == StopExchanged(o, before, input) &&
            sent == [Asked(before, input).live]
  {
    r := before.(steps := before.steps + 1);
    r := PrepareRequest(r, input);
    sent := [r.live];
    if input.streamAborted {
      return r, sent, Some(Stopped);
    }
    var turn, attempts := StreamWithRetries(input.attempt);
    if turn.None? {
      r := Note(r, FailureNotice());
      return r, sent, Some(StreamFailed);
    }
    r, stop := Converse(o, r, input, est, turn.value);
  }

  /** One pass through the loop body. */
  method Head(o: Options, before: Run, input: HeadInput) returns (r: Run, sent: seq<seq<Ref>>, stop: Option<Outcome>)
    ensures r == Passed(o, before, input) && stop == StopOf(o, before, input) && sent == SentBy(o, before, input)
  {
    r, sent := before, [];
    if input.aborted {
      return r, sent, Some(Stopped);
    }
    var est := o.estimate(Contents(r.live));
    if OverBudget(o, r.tokens, est) {
      if input.summary.Some? && input.summary.value != "" {
        r := Compact(r, o.frame(input.summary.value));
        return r, sent, None;
      }
      if !input.summaryAborted {
        r := Note(r, SystemNotice("Auto-compaction failed"));
      }
      return r, sent, Some(NoSummary);
    }
    if r.steps >= o.maxSteps {
      r := Note(r, SystemNotice("Reached the maximum number of agent steps"));
      return r, sent, Some(StepLimit);
    }
    r, sent, stop := Exchange(o, r, input, est);
  }

  // ----- what one pass keeps

  /** Tool handlers answer with tool messages. */
  ghost predicate ToolsAnswer(o: Options) {
    forall k: nat, i :: 0 <= i < |o.input(k).toolMessages| ==>
      o.input(k).toolMessages[i].role == Tool && o.input(k).toolMessages[i].displayName == None
  }

  ghost predicate WithinBudgets(o: Options, r: Run) {
    r.steps <= o.maxSteps && r.repairs <= MAX_REPAIR && r.critics <= MAX_CRITIC && r.continues <= MAX_CONTINUE
  }

  /** `r` differs from `before` in its messages only. */
  ghost predicate OnlyMessages(before: Run, r: Run) {
    r == before.(live := r.live, transcript := r.transcript, nextId := r.nextId)
  }

  predicate Repacked(r: Run, input: HeadInput) {
    Repacks(Push(r, ContextNote(input.context)), input)
  }

  lemma {:induction false} PreparedKeeps(r: Run, input: HeadInput)
    ensures Sync(r) ==> Sync(Prepared(r, input))
    ensures !Repacked(r, input) ==> r.live <= Prepared(r, input).live
    ensures OnlyMessages(r, Prepared(r, input))
  {
    if Sync(r) {
      OwnMessagesArePlain(input.context, []);
      PushKeepsSync(r, ContextNote(input.context));
      if Repacked(r, input) { PackKeepsSync(Push(r, ContextNote(input.context)), input.pack); }
    }
  }

  lemma {:induction false} TakenKeeps(o: Options, r: Run, input: HeadInput, turn: Turn)
    ensures Sync(r) ==> Sync(Taken(o, r, input, turn)) && r.live <= Taken(o, r, input, turn).live
    ensures OnlyMessages(r, Taken(o, r, input, turn))
  {
    if Sync(r) {
      var reply := AssistantMessage(turn.content, turn.calls);
      var told := Push(r, [reply]);
      PushKeepsSync(r, [reply]);
      assert told.live == r.live + [Ref(r.nextId, reply)];
      if Humanizes(o, input, turn) {
        RewriteKeepsSync(told, input.humanized.value);
        assert Taken(o, r, input, turn).live[..|r.live|] == r.live;
      }
    }
  }

  lemma {:induction false} FollowedKeeps(o: Options, r: Run, input: HeadInput, turn: Turn)
    ensures Sync(r) && PlainMessages(input.toolMessages) ==> Sync(Followed(o, r, input, turn))
    ensures r.live <= Followed(o, r, input, turn).live
    ensures WithinBudgets(o, r) ==> WithinBudgets(o, Followed(o, r, input, turn))
    ensures Followed(o, r, input, turn).steps == r.steps
  {
    if Sync(r) && PlainMessages(input.toolMessages) {
      if turn.calls != [] {
        PushKeepsSync(r, input.toolMessages);
      } else {
        NudgedKeepsSync(o, r, input, turn);
      }
    }
  }

  lemma {:induction false} NudgedKeepsSync(o: Options, r: Run, input: HeadInput, turn: Turn)
    requires Sync(r) && turn.calls == []
    ensures Sync(Followed(o, r, input, turn))
  {
    if CutOff(r, turn) {
      ContinueKeepsSync(r);
    } else if FailsChecks(o, r, input) {
      VerifyKeepsSync(r, Clipped(input.failingChecks.value));
    } else if IsRejected(o, r, input) {
      CriticKeepsSync(r, input.rejection.value);
    }
  }

  lemma {:induction false} ContinueKeepsSync(r: Run)
    requires Sync(r)
    ensures Sync(Push(r.(continues := r.continues + 1), [ContinueNote()]))
  {
    OwnMessagesArePlain("", []);
    NudgeKeepsSync(r, r.(continues := r.continues + 1), ContinueNote());
  }

  lemma {:induction false} VerifyKeepsSync(r: Run, summary: string)
    requires Sync(r)
    ensures Sync(Push(r.(repairs := r.repairs + 1), [VerifyNote(summary)]))
  {
    OwnMessagesArePlain(summary, []);
    NudgeKeepsSync(r, r.(repairs := r.repairs + 1), VerifyNote(summary));
  }

  lemma {:induction false} CriticKeepsSync(r: Run, issues: string)
    requires Sync(r)
    ensures Sync(Push(r.(critics := r.critics + 1), [CriticNote(issues)]))
  {
    OwnMessagesArePlain(issues, []);
    NudgeKeepsSync(r, r.(critics := r.critics + 1), CriticNote(issues));
  }

  lemma {:induction false} NudgeKeepsSync(r: Run, counted: Run, m: Message)
    requires Sync(r) && !IsCheckpoint(m)
    requires counted.live == r.live && counted.transcript == r.transcript && counted.nextId == r.nextId
    ensures Sync(Push(counted, [m]))
  {
    PushKeepsSync(counted, [m]);
  }

  lemma {:induction false} ConversedKeeps(o: Options, r: Run, input: HeadInput, est: nat, turn: Turn)
    ensures Sync(r) && PlainMessages(input.toolMessages) ==> Sync(Conversed(o, r, input, est, turn))
    ensures Sync(r) ==> r.live <= Conversed(o, r, input, est, turn).live
    ensures WithinBudgets(o, r) ==> WithinBudgets(o, Conversed(o, r, input, est, turn))
    ensures Conversed(o, r, input, est, turn).steps == r.steps
  {
    var counted := r.(tokens := Or(turn.promptTokens, est));
    if SaysNothing(turn) {
      if Sync(r) { PushKeepsSync(counted, [AssistantMessage(input.errorDetail, [])]); }
    } else {
      TakenKeeps(o, counted, input, turn);
      FollowedKeeps(o, Taken(o, counted, input, turn), input, turn);
    }
  }

  lemma {:induction false} ExchangedKeeps(o: Options, r: Run, input: HeadInput)
    requires WithinBudgets(o, r) && r.steps < o.maxSteps
    ensures WithinBudgets(o, Exchanged(o, r, input)) && Exchanged(o, r, input).steps == r.steps + 1
    ensures Sync(r) && StopExchanged(o, r, input).None? && PlainMessages(input.toolMessages) ==>
            Sync(Exchanged(o, r, input))
    ensures Sync(r) && StopExchanged(o, r, input).None? ==> Asked(r, input).live <= Exchanged(o, r, input).live
  {
    if Sync(r) { AskedKeepsSync(r, input); }
    if !input.streamAborted && Streamed(input.attempt).Some? {
      ConversedKeeps(o, Asked(r, input), input, o.estimate(Contents(r.live)), Streamed(input.attempt).value);
    }
  }

  lemma {:induction false} AskedKeepsSync(r: Run, input: HeadInput)
    requires Sync(r)
    ensures Sync(Asked(r, input))
  {
    PreparedKeeps(r.(steps := r.steps + 1), input);
  }

  /** One pass: budgets hold, a step is counted exactly when a request goes out, the transcript still
      reloads unless the run ends, and the live context keeps what was sent. */
  lemma {:induction false} PassKeeps(o: Options, r: Run, input: HeadInput)
    requires WithinBudgets(o, r)
    ensures WithinBudgets(o, Passed(o, r, input))
    ensures Passed(o, r, input).steps == r.steps + (if Sends(o, r, input) then 1 else 0)
    ensures Sync(r) && StopOf(o, r, input).None? && PlainMessages(input.toolMessages) ==> Sync(Passed(o, r, input))
    ensures Sync(r) && StopOf(o, r, input).None? && Sends(o, r, input) ==>
            Asked(r, input).live <= Passed(o, r, input).live
  {
    if Sends(o, r, input) {
      ExchangedKeeps(o, r, input);
    } else if Over(o, r) && HasSummary(input) && Sync(r) {
      CompactKeepsSync(r, o.frame(input.summary.value));
    }
  }
}
