/** The bounded loop of streamed turns and tool calls. Model replies, hooks, tool results (one a call), the
    clock and the three readings of the abort signal are arbitrary inputs, one `TurnInput` a round. */
module ToolLoop {
  import opened Text
  import opened Transcript

  datatype Outcome = Returns(text: string) | Throws(message: string)

  /** What the caller's hook asks for after a finished assistant turn. */
  datatype Hook = Hook(content: Option<string>, inject: seq<Message>, halt: bool, proceed: Option<bool>)

  datatype TurnInput = TurnInput(
    abortedBefore: bool,
    clock: string,
    streamError: Option<string>,
    abortedStreaming: bool,
    content: string,
    calls: seq<ToolCall>,
    dropped: seq<string>,
    hook: Hook,
    abortedHooking: bool,
    run: (nat, ToolCall) -> Outcome)

  datatype Options = Options(
    messages: seq<Message>,
    maxSteps: nat,
    appendDateTime: bool,
    offered: seq<string>,
    registry: set<string>,
    errorJson: string -> string,
    input: nat -> TurnInput)

  datatype Stop = Done | Steps | Aborted | Empty | Halted | Threw(message: string)

  const MARKUP_FOR := "[System: your tool-call markup for "
  const WAS_IGNORED := " was ignored — "
  const NOT_AVAILABLE := "those tools are not available right now. Available tools: "
  const CALL_ONE := ". Call one of the available tools using the native tool-call format, or answer directly in prose.]"
  const NO_TOOLS := "no tools are available in this conversation. Answer directly in prose.]"
  const UNKNOWN_TOOL := "unknown tool: "

  function Listed(names: seq<string>): string {
    if names == [] then ""
    else if |names| == 1 then names[0]
    else names[0] + ", " + Listed(names[1..])
  }

  function Distinct(names: seq<string>): seq<string> {
    if names == [] then []
    else
      var n := |names| - 1;
      Distinct(names[..n]) + if names[n] in names[..n] then [] else [names[n]]
  }

  /** Tells the model that it called tools it was not offered. */
  function Correction(dropped: seq<string>, offered: seq<string>): Message {
    var ignored := MARKUP_FOR + Listed(Distinct(dropped)) + WAS_IGNORED;
    var text := if offered != [] then ignored + NOT_AVAILABLE + Listed(offered) + CALL_ONE else ignored + NO_TOOLS;
    Message(User, text, [], None, None, None, false)
  }

  function ResultText(o: Options, run: (nat, ToolCall) -> Outcome, i: nat, call: ToolCall): string {
    if call.name !in o.registry then o.errorJson(UNKNOWN_TOOL + call.name)
    else match run(i, call) case Returns(text) => text case Throws(message) => o.errorJson(message)
  }

  /** A tool message with the call's id and name: what the handler of a registered tool returned, the error JSON
      of what it threw, or the error JSON naming a tool that is not registered. */
  predicate IsAnswer(o: Options, run: (nat, ToolCall) -> Outcome, i: nat, call: ToolCall, m: Message) {
    && m.role == Tool && m.calls == [] && m.callId == Some(call.id) && m.name == Some(call.name)
    && m.displayName == None
    && (call.name in o.registry && run(i, call).Returns? ==> m.content == run(i, call).text)
    && (call.name in o.registry && run(i, call).Throws? ==> m.content == o.errorJson(run(i, call).message))
    && (call.name !in o.registry ==> m.content == o.errorJson("unknown tool: " + call.name))
  }

  /** One answer a call, in order, whatever goes wrong in a handler. */
  method ExecuteToolCalls(o: Options, calls: seq<ToolCall>, run: (nat, ToolCall) -> Outcome) returns (out: seq<Message>)
    ensures |out| == |calls|
    ensures forall i :: 0 <= i < |calls| ==> IsAnswer(o, run, i, calls[i], out[i])
    ensures forall i :: 0 <= i < |calls| ==>
            out[i] == ToolMessage(calls[i].id, calls[i].name, ResultText(o, run, i, calls[i]))
  {
    out := [];
    for i := 0 to |calls|
      invariant |out| == i
      invariant forall j :: 0 <= j < i ==>
                out[j] == ToolMessage(calls[j].id, calls[j].name, ResultText(o, run, j, calls[j]))
    {
      var call := calls[i];
      var result;
      if call.name !in o.registry {
        result := o.errorJson(UNKNOWN_TOOL + call.name);
      } else {
        match run(i, call)
        case Returns(text) => result := text;
        case Throws(message) => result := o.errorJson(message);
      }
      out := out + [ToolMessage(call.id, call.name, result)];
    }
  }

  // ----- what a round does

  function NoteOf(o: Options, t: TurnInput): seq<Message> {
    if o.appendDateTime then ContextNote(t.clock) else []
  }

  predicate Proceeds(t: TurnInput) {
    Or(t.hook.proceed, t.calls != [])
  }

  /** The model called tools it was not offered, and nothing else is to be done. */
  predicate NeedsCorrection(t: TurnInput) {
    !Proceeds(t) && !t.abortedHooking && t.calls == [] && t.dropped != []
  }

  function Answers(o: Options, t: TurnInput): seq<Message> {
    seq(|t.calls|, i requires 0 <= i < |t.calls| =>
      ToolMessage(t.calls[i].id, t.calls[i].name, ResultText(o, t.run, i, t.calls[i])))
  }

  function Said(t: TurnInput): seq<Message> {
    [AssistantMessage(Or(t.hook.content, t.content), t.calls)] + t.hook.inject
  }

  /** What follows the model's words: nothing, a correction, or an answer to each call. */
  function Closing(o: Options, t: TurnInput): seq<Message> {
    if t.hook.halt then []
    else if NeedsCorrection(t) then [Correction(t.dropped, o.offered)]
    else if Proceeds(t) then Answers(o, t)
    else []
  }

  function StopAfter(t: TurnInput): Option<Stop> {
    if t.hook.halt then Some(Halted)
    else if NeedsCorrection(t) || Proceeds(t) then None
    else Some(Done)
  }

  /** Why a round yields no assistant turn, if it does not. */
  function StopBefore(t: TurnInput): Option<Stop> {
    if t.abortedBefore then Some(Aborted)
    else if t.streamError.Some? && !t.abortedStreaming then Some(Threw(t.streamError.value))
    else if Blank(t.content) && t.calls == [] then Some(Empty)
    else None
  }

  function StopOf(t: TurnInput): Option<Stop> {
    if StopBefore(t).Some? then StopBefore(t) else StopAfter(t)
  }

  function RoundOf(o: Options, t: TurnInput): seq<Message> {
    if t.abortedBefore then []
    else NoteOf(o, t) + if StopBefore(t).Some? then [] else Said(t) + Closing(o, t)
  }

  // ----- a run, round by round

  /** The transcript after n rounds. */
  ghost function Grown(start: seq<Message>, added: nat -> seq<Message>, n: nat): seq<Message> {
    if n == 0 then start else Grown(start, added, n - 1) + added(n - 1)
  }

  /** Each request is the transcript at that round with its context note. */
  ghost predicate AreRequests(start: seq<Message>, added: nat -> seq<Message>, note: nat -> seq<Message>,
      requests: seq<seq<Message>>) {
    forall i :: 0 <= i < |requests| ==> requests[i] == Grown(start, added, i) + note(i)
  }

  /** No round before the n-th ends the run. */
  ghost predicate GoesOn(stops: nat -> Option<Stop>, n: nat) {
    forall k: nat :: k < n ==> stops(k).None?
  }

  /** The result of a run: the rounds played, why it stopped, the messages, what was sent. */
  datatype Result = Result(messages: seq<Message>, turns: nat, stop: Stop, requests: seq<seq<Message>>) {
    /** A round that stops the run does not count as a turn. */
    function Rounds(): nat {
      if stop == Steps then turns else turns + 1
    }
  }

  /** The run goes on until a round stops it or the budget is spent, each round appends its messages,
      and each round that is not aborted at once sends one request. */
  ghost predicate IsRun(start: seq<Message>, added: nat -> seq<Message>, note: nat -> seq<Message>,
      stops: nat -> Option<Stop>, maxSteps: nat, r: Result) {
    && r.turns <= maxSteps && GoesOn(stops, r.turns)
    && (if r.turns == maxSteps then r.stop == Steps else r.stop != Steps && stops(r.turns) == Some(r.stop))
    && r.messages == Grown(start, added, r.Rounds())
    && |r.requests| == r.turns + (if r.stop == Steps || r.stop == Aborted then 0 else 1)
    && AreRequests(start, added, note, r.requests)
  }

  function Rounds(o: Options): nat -> seq<Message> {
    (k: nat) => RoundOf(o, o.input(k))
  }

  function Notes(o: Options): nat -> seq<Message> {
    (k: nat) => NoteOf(o, o.input(k))
  }

  function Stops(o: Options): nat -> Option<Stop> {
    (k: nat) => StopOf(o.input(k))
  }

  ghost predicate IsRunOf(o: Options, r: Result) {
    IsRun(o.messages, Rounds(o), Notes(o), Stops(o), o.maxSteps, r)
  }

  method RunToolLoop(o: Options) returns (r: Result, batches: seq<seq<Message>>)
    ensures IsRunOf(o, r) && r.messages == o.messages + Flatten(batches)
  {
    var messages, turns, requests := o.messages, 0, [];
    batches := [];
    while turns < o.maxSteps
      invariant turns <= o.maxSteps && messages == o.messages + Flatten(batches)
      invariant Playing(o.messages, Rounds(o), Notes(o), Stops(o), turns, messages, requests)
    {
      var stop;
      ghost var before, sent := messages, requests;
      messages, batches, requests, stop := PlayRound(o, turns, messages, batches, requests);
      if stop.Some? {
        RunStops(o.messages, Rounds(o), Notes(o), Stops(o), o.maxSteps, turns, before, sent, stop.value);
        return Result(messages, turns, stop.value, requests), batches;
      }
      RunGoesOn(o.messages, Rounds(o), Notes(o), Stops(o), turns, before, sent);
      turns := turns + 1;
    }
    return Result(messages, turns, Steps, requests), batches;
  }

  /** A run after `n` rounds that did not stop it. */
  ghost predicate Playing(start: seq<Message>, added: nat -> seq<Message>, note: nat -> seq<Message>,
      stops: nat -> Option<Stop>, n: nat, messages: seq<Message>, requests: seq<seq<Message>>) {
    GoesOn(stops, n) && messages == Grown(start, added, n) && |requests| == n &&
      AreRequests(start, added, note, requests)
  }

  lemma {:induction false} RunGoesOn(start: seq<Message>, added: nat -> seq<Message>, note: nat -> seq<Message>,
      stops: nat -> Option<Stop>, n: nat, messages: seq<Message>, requests: seq<seq<Message>>)
    requires Playing(start, added, note, stops, n, messages, requests) && stops(n).None?
    ensures Playing(start, added, note, stops, n + 1, messages + added(n), requests + [messages + note(n)])
  {
  }

  lemma {:induction false} RunStops(start: seq<Message>, added: nat -> seq<Message>, note: nat -> seq<Message>,
      stops: nat -> Option<Stop>, maxSteps: nat, n: nat, messages: seq<Message>, requests: seq<seq<Message>>,
      stop: Stop)
    requires Playing(start, added, note, stops, n, messages, requests) && n < maxSteps && stops(n) == Some(stop) &&
             stop != Steps
    ensures var sent := requests + if stop == Aborted then [] else [messages + note(n)];
            IsRun(start, added, note, stops, maxSteps, Result(messages + added(n), n, stop, sent))
  {
  }

  /** One pass through the loop body. */
  method PlayRound(o: Options, k: nat, before: seq<Message>, soFar: seq<seq<Message>>, sent: seq<seq<Message>>)
    returns (messages: seq<Message>, batches: seq<seq<Message>>, requests: seq<seq<Message>>, stop: Option<Stop>)
    requires before == o.messages + Flatten(soFar)
    ensures messages == before + Rounds(o)(k) && messages == o.messages + Flatten(batches)
    ensures requests == sent + if stop == Some(Aborted) then [] else [before + Notes(o)(k)]
    ensures stop == Stops(o)(k) && stop != Some(Steps)
  {
    messages, batches, requests := before, soFar, sent;
    var t := o.input(k);
    if t.abortedBefore {
      return messages, batches, requests, Some(Aborted);
    }
    messages, batches := AddContextNote(o, t, messages, batches);
    requests := requests + [messages];
    RoundParts(o, t, before);
    if t.streamError.Some? && !t.abortedStreaming {
      return messages, batches, requests, Some(Threw(t.streamError.value));
    }
    if Blank(t.content) && t.calls == [] {
      return messages, batches, requests, Some(Empty);
    }
    messages, batches, stop := AnswerTurn(o, t, messages, batches);
  }

  lemma {:induction false} RoundParts(o: Options, t: TurnInput, before: seq<Message>)
    requires !t.abortedBefore
    ensures before + RoundOf(o, t) ==
            before + NoteOf(o, t) + if StopBefore(t).Some? then [] else Said(t) + Closing(o, t)
  {
    Regroup(before, NoteOf(o, t), if StopBefore(t).Some? then [] else Said(t) + Closing(o, t));
  }

  method AddContextNote(o: Options, t: TurnInput, before: seq<Message>, soFar: seq<seq<Message>>)
    returns (messages: seq<Message>, batches: seq<seq<Message>>)
    requires before == o.messages + Flatten(soFar)
    ensures messages == before + NoteOf(o, t) && messages == o.messages + Flatten(batches)
  {
    messages, batches := before, soFar;
    if o.appendDateTime {
      var note := ContextNote(t.clock);
      if note != [] {
        messages, batches := Append(o.messages, messages, batches, note);
      }
    }
  }

  /** The part of a round after the reply: append it, then stop, correct the model or run its calls. */
  method AnswerTurn(o: Options, t: TurnInput, asked: seq<Message>, soFar: seq<seq<Message>>)
    returns (messages: seq<Message>, batches: seq<seq<Message>>, flow: Option<Stop>)
    requires asked == o.messages + Flatten(soFar)
    ensures messages == asked + (Said(t) + Closing(o, t)) && messages == o.messages + Flatten(batches)
    ensures flow == StopAfter(t)
  {
    var assistant := AssistantMessage(Or(t.hook.content, t.content), t.calls);
    Regroup(asked, Said(t), Closing(o, t));
    messages, batches := Append(o.messages, asked, soFar, [assistant]);
    if |t.hook.inject| > 0 {
      messages, batches := Append(o.messages, messages, batches, t.hook.inject);
    }
    assert messages == asked + Said(t);
    if t.hook.halt {
      return messages, batches, Some(Halted);
    }
    var proceed := Or(t.hook.proceed, |t.calls| > 0);
    if !proceed && !t.abortedHooking && t.calls == [] && t.dropped != [] {
      messages, batches := Append(o.messages, messages, batches, [Correction(t.dropped, o.offered)]);
      return messages, batches, None;
    }
    if !proceed {
      return messages, batches, Some(Done);
    }
    var toolMsgs := ExecuteToolCalls(o, t.calls, t.run);
    assert toolMsgs == Answers(o, t);
    messages, batches := Append(o.messages, messages, batches, toolMsgs);
    return messages, batches, None;
  }

  /** Append a batch and report it. */
  method Append(ghost start: seq<Message>, messages: seq<Message>, batches: seq<seq<Message>>, more: seq<Message>)
    returns (messages': seq<Message>, batches': seq<seq<Message>>)
    requires messages == start + Flatten(batches)
    ensures messages' == messages + more && batches' == batches + [more] && messages' == start + Flatten(batches')
  {
    messages', batches' := messages + more, batches + [more];
    assert batches'[..|batches|] == batches;
  }

  // ----- each request extends the one before

  ghost predicate Growing(start: seq<Message>, requests: seq<seq<Message>>, messages: seq<Message>) {
    && start <= messages
    && (forall i :: 0 <= i < |requests| ==> start <= requests[i] <= messages)
    && (forall i, j :: 0 <= i < j < |requests| ==> requests[i] <= requests[j])
  }

  lemma {:induction false} GrownIsMonotone(start: seq<Message>, added: nat -> seq<Message>, m: nat, n: nat)
    requires m <= n
    ensures Grown(start, added, m) <= Grown(start, added, n)
    decreases n
  {
    if m < n { GrownIsMonotone(start, added, m, n - 1); }
  }

  lemma {:induction false} RequestIsInside(start: seq<Message>, added: nat -> seq<Message>, note: seq<Message>, i: nat,
      n: nat)
    requires i < n && note <= added(i)
    ensures start <= Grown(start, added, i) <= Grown(start, added, i) + note <= Grown(start, added, n)
  {
    GrownIsMonotone(start, added, 0, i);
    GrownIsMonotone(start, added, i + 1, n);
  }

  /** A round that sends a request appends at least the request's note. */
  ghost predicate NotesStay(added: nat -> seq<Message>, note: nat -> seq<Message>, stops: nat -> Option<Stop>) {
    forall k: nat :: stops(k) != Some(Aborted) ==> note(k) <= added(k)
  }

  lemma {:induction false} SentRound(stops: nat -> Option<Stop>, r: Result, i: nat)
    requires GoesOn(stops, r.turns) && (r.stop != Steps ==> stops(r.turns) == Some(r.stop))
    requires i < |r.requests| == r.turns + (if r.stop == Steps || r.stop == Aborted then 0 else 1)
    ensures i < r.Rounds() && stops(i) != Some(Aborted)
  {
    assert i < r.turns ==> stops(i).None?;
  }

  lemma {:induction false} ScriptedRequestsGrow(start: seq<Message>, added: nat -> seq<Message>,
      note: nat -> seq<Message>, stops: nat -> Option<Stop>, maxSteps: nat, r: Result)
    requires IsRun(start, added, note, stops, maxSteps, r) && NotesStay(added, note, stops)
    ensures Growing(start, r.requests, r.messages)
  {
    GrownIsMonotone(start, added, 0, r.Rounds());
    forall i: nat | i < |r.requests| ensures start <= r.requests[i] <= r.messages {
      SentRound(stops, r, i);
      RequestIsInside(start, added, note(i), i, r.Rounds());
    }
    forall i: nat, j: nat | i < j < |r.requests| ensures r.requests[i] <= r.requests[j] {
      SentRound(stops, r, i);
      EarlierRequest(start, added, note, r.requests, i, j);
    }
  }

  lemma {:induction false} EarlierRequest(start: seq<Message>, added: nat -> seq<Message>,
      note: nat -> seq<Message>, requests: seq<seq<Message>>, i: nat, j: nat)
    requires AreRequests(start, added, note, requests) && i < j < |requests| && note(i) <= added(i)
    ensures requests[i] <= requests[j]
  {
    RequestIsInside(start, added, note(i), i, j);
  }

  /** Every request extends all the ones before, the transcript extends every request, and there are
      no more requests than steps. */
  lemma {:induction false} RequestsGrow(o: Options, r: Result)
    requires IsRunOf(o, r)
    ensures Growing(o.messages, r.requests, r.messages) && |r.requests| <= o.maxSteps
  {
    forall k: nat | Stops(o)(k) != Some(Aborted) ensures Notes(o)(k) <= Rounds(o)(k) {
      NoteComesFirst(o, o.input(k));
    }
    assert NotesStay(Rounds(o), Notes(o), Stops(o));
    ScriptedRequestsGrow(o.messages, Rounds(o), Notes(o), Stops(o), o.maxSteps, r);
  }

  lemma {:induction false} NoteComesFirst(o: Options, t: TurnInput)
    requires StopOf(t) != Some(Aborted)
    ensures NoteOf(o, t) <= RoundOf(o, t)
  {
  }

  // ----- clean runs need no repair

  /** Hooks inject user messages only. */
  ghost predicate InjectsUserMessages(o: Options) {
    forall k: nat, i :: 0 <= i < |o.input(k).hook.inject| ==> o.input(k).hook.inject[i].role == User
  }

  /** A turn that leaves none of its calls pending. */
  ghost predicate Clean(t: TurnInput) {
    t.calls != [] ==> t.hook.inject == [] && !t.hook.halt && t.hook.proceed != Some(false) && Named(t.calls)
  }

  /** Either the round has no turn, or a clean one. */
  ghost predicate Tidy(t: TurnInput) {
    StopBefore(t).Some? || Clean(t)
  }

  ghost function TidyRounds(o: Options): nat -> bool {
    (k: nat) => Tidy(o.input(k))
  }

  ghost predicate AllBefore(good: nat -> bool, n: nat) {
    forall k: nat :: k < n ==> good(k)
  }

  ghost predicate Intact(ms: seq<Message>) {
    Sanitized(ms) == ms
  }

  lemma {:induction false} NoteKeepsIntact(o: Options, t: TurnInput, ms: seq<Message>)
    ensures Intact(ms + NoteOf(o, t)) <==> Intact(ms)
  {
    if NoteOf(o, t) == [] {
      assert ms + [] == ms;
    } else {
      UserNoteKeepsIntact(ms, NoteOf(o, t)[0]);
      assert NoteOf(o, t) == [NoteOf(o, t)[0]];
    }
  }

  /** A round keeps the transcript intact exactly when it is tidy. */
  lemma {:induction false} RoundKeepsIntact(o: Options, k: nat, ms: seq<Message>)
    requires InjectsUserMessages(o)
    ensures Intact(ms + RoundOf(o, o.input(k))) <==> Intact(ms) && Tidy(o.input(k))
  {
    var t := o.input(k);
    if t.abortedBefore {
      assert ms + [] == ms;
    } else {
      NoteKeepsIntact(o, t, ms);
      RoundParts(o, t, ms);
      if StopBefore(t).None? {
        ClosedReply(o, k, ms + NoteOf(o, t));
      } else {
        assert ms + NoteOf(o, t) + [] == ms + NoteOf(o, t);
      }
    }
  }

  lemma {:induction false} ClosedReply(o: Options, k: nat, asked: seq<Message>)
    requires InjectsUserMessages(o)
    ensures var t := o.input(k); Intact(asked + (Said(t) + Closing(o, t))) <==> Intact(asked) && Clean(t)
  {
    var t := o.input(k);
    var assistant := AssistantMessage(Or(t.hook.content, t.content), t.calls);
    Regroup(asked, Said(t), Closing(o, t));
    if t.hook.halt || !Proceeds(t) {
      PendingReply(o, k, asked, assistant);
      if Closing(o, t) == [] {
        assert asked + Said(t) + [] == asked + Said(t);
      } else {
        UserNoteKeepsIntact(asked + Said(t), Correction(t.dropped, o.offered));
      }
    } else {
      AnsweredReply(o, k, asked, assistant, Answers(o, t));
    }
  }

  /** What every good round keeps and every other round breaks for good. */
  lemma {:induction false} KeptWhileGood(start: seq<Message>, added: nat -> seq<Message>, p: seq<Message> -> bool,
      good: nat -> bool, n: nat)
    requires p(start) && forall k: nat, ms: seq<Message> :: p(ms + added(k)) <==> p(ms) && good(k)
    ensures p(Grown(start, added, n)) <==> AllBefore(good, n)
  {
    if n > 0 { KeptWhileGood(start, added, p, good, n - 1); }
  }

  lemma {:induction false} IntactThrough(o: Options, n: nat)
    requires InjectsUserMessages(o) && Intact(o.messages)
    ensures Intact(Grown(o.messages, Rounds(o), n)) <==> AllBefore(TidyRounds(o), n)
    ensures Intact(Grown(o.messages, Rounds(o), n) + Notes(o)(n)) <==> AllBefore(TidyRounds(o), n)
  {
    forall k: nat, ms: seq<Message>
      ensures Intact(ms + Rounds(o)(k)) <==> Intact(ms) && TidyRounds(o)(k)
    {
      RoundKeepsIntact(o, k, ms);
    }
    KeptWhileGood(o.messages, Rounds(o), Intact, TidyRounds(o), n);
    NoteKeepsIntact(o, o.input(n), Grown(o.messages, Rounds(o), n));
  }

  /** From an intact start the result of a run is intact exactly when every round of it was tidy, and
      a request is exactly when every round before it was. */
  lemma {:induction false} IntactIffTidy(o: Options, r: Result)
    requires IsRunOf(o, r) && InjectsUserMessages(o) && Intact(o.messages)
    ensures Intact(r.messages) <==> AllBefore(TidyRounds(o), r.Rounds())
    ensures forall i: nat :: i < |r.requests| ==> (Intact(r.requests[i]) <==> AllBefore(TidyRounds(o), i))
  {
    IntactThrough(o, r.Rounds());
    forall i: nat | i < |r.requests| ensures Intact(r.requests[i]) <==> AllBefore(TidyRounds(o), i) {
      IntactThrough(o, i);
    }
  }

  /** In a tidy run what goes over the wire, after repair, grows the same way. */
  lemma {:induction false} WireExtends(o: Options, r: Result, i: nat, j: nat)
    requires IsRunOf(o, r) && InjectsUserMessages(o) && Intact(o.messages)
    requires i < j < |r.requests| && AllBefore(TidyRounds(o), j)
    ensures Sanitized(r.requests[i]) <= Sanitized(r.requests[j])
  {
    RequestsGrow(o, r);
    IntactIffTidy(o, r);
    assert AllBefore(TidyRounds(o), i);
  }

  // ----- which appends leave the transcript intact

  lemma {:induction false} IntactConcat(ms: seq<Message>, ext: seq<Message>)
    requires ext == [] || ext[0].role != Tool
    ensures Intact(ms + ext) <==> Intact(ms) && Accepted(true, ScopeThrough({}, ms), ext)
  {
    UnchangedIffAccepted({}, ms);
    UnchangedIffAccepted({}, ms + ext);
    AcceptedConcat(true, {}, ms, ext);
  }

  lemma {:induction false} UsersAreAccepted(scope: set<string>, ms: seq<Message>)
    requires forall i :: 0 <= i < |ms| ==> ms[i].role == User
    ensures Accepted(true, scope, ms)
    decreases |ms|
  {
    if ms != [] { UsersAreAccepted(ScopeAfter(scope, ms[0]), ms[1..]); }
  }

  lemma {:induction false} UserNoteKeepsIntact(ms: seq<Message>, note: Message)
    requires note.role == User
    ensures Intact(ms + [note]) <==> Intact(ms)
  {
    IntactConcat(ms, [note]);
    UsersAreAccepted(ScopeThrough({}, ms), [note]);
  }

  /** A reply whose calls, if any, are not run. */
  lemma {:induction false} PendingReply(o: Options, k: nat, asked: seq<Message>, assistant: Message)
    requires assistant.role == Assistant && assistant.calls == o.input(k).calls
    ensures InjectsUserMessages(o) ==>
              (Intact(asked + ([assistant] + o.input(k).hook.inject)) <==> Intact(asked) && o.input(k).calls == [])
  {
    if InjectsUserMessages(o) {
      var inject := o.input(k).hook.inject;
      var reply := [assistant] + inject;
      IntactConcat(asked, reply);
      assert reply[1..] == inject;
      UsersAreAccepted(ScopeAfter(ScopeThrough({}, asked), assistant), inject);
      LeadingToolsIs(inject, 0);
      if assistant.calls != [] {
        assert !Answered(true, reply[1..1], assistant.calls[0].id);
      }
    }
  }

  /** A reply whose calls are answered one by one after what the hook injected. */
  lemma {:induction false} AnsweredReply(o: Options, k: nat, asked: seq<Message>, assistant: Message,
      tools: seq<Message>)
    requires assistant.role == Assistant && assistant.calls == o.input(k).calls
    requires |tools| == |assistant.calls|
    requires forall i :: 0 <= i < |tools| ==> tools[i].role == Tool && tools[i].callId == Some(assistant.calls[i].id)
    ensures InjectsUserMessages(o) ==>
              (Intact(asked + ([assistant] + o.input(k).hook.inject) + tools) <==>
               Intact(asked) && (assistant.calls == [] || (o.input(k).hook.inject == [] && Named(assistant.calls))))
  {
    if InjectsUserMessages(o) {
      var inject := o.input(k).hook.inject;
      var ext := [assistant] + (inject + tools);
      assert asked + ([assistant] + inject) + tools == asked + ext;
      IntactConcat(asked, ext);
      AnsweredReplyAccepted(ScopeThrough({}, asked), assistant, inject, tools);
    }
  }

  lemma {:induction false} AnsweredReplyAccepted(scope: set<string>, assistant: Message, inject: seq<Message>,
      tools: seq<Message>)
    requires assistant.role == Assistant && |tools| == |assistant.calls|
    requires forall i :: 0 <= i < |inject| ==> inject[i].role == User
    requires forall i :: 0 <= i < |tools| ==> tools[i].role == Tool && tools[i].callId == Some(assistant.calls[i].id)
    ensures Accepted(true, scope, [assistant] + (inject + tools)) <==>
            assistant.calls == [] || (inject == [] && Named(assistant.calls))
  {
    var ext := [assistant] + (inject + tools);
    assert ext[1..] == inject + tools;
    if assistant.calls == [] {
      assert inject + tools == inject;
      UsersAreAccepted(ScopeAfter(scope, assistant), inject);
    } else if inject != [] {
      LeadingToolsIs(inject + tools, 0);
      assert !Answered(true, ext[1..1], assistant.calls[0].id);
    } else {
      assert inject + tools == tools;
      LeadingToolsIs(tools, |tools|);
      assert ext[1..|tools| + 1] == tools && ext[|tools| + 1..] == [];
      AnsweredIffNamed(assistant.calls, tools);
    }
  }

  lemma {:induction false} AnsweredIffNamed(calls: seq<ToolCall>, tools: seq<Message>)
    requires |tools| == |calls| && forall i :: 0 <= i < |tools| ==> tools[i].callId == Some(calls[i].id)
    ensures AllAnswered(true, tools, calls) <==> Named(calls)
  {
    forall c | 0 <= c < |calls|
      ensures Answered(true, tools, calls[c].id) <==> calls[c].id != ""
    {
      assert tools[c].callId == Some(calls[c].id);
    }
  }
}
