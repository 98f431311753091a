/** What one pass of the supervisor does, message by message: what is sent, what the live context and the
    transcript get, which of the gates speaks, and why a run ends. */
module SupervisorPasses {
  import opened Text
  import opened Transcript
  import opened LiveContext
  import opened Supervisor
  import opened SupervisorRuns

  // ----- the description of a pass

  /** Both lists get the same new messages at the end and are otherwise as before. */
  ghost predicate Adds(before: Run, r: Run, ms: seq<Message>) {
    && |r.live| == |before.live| + |ms| && r.live[..|before.live|] == before.live
    && (forall i :: 0 <= i < |ms| ==> r.live[|before.live| + i].msg == ms[i])
    && r.transcript == before.transcript + r.live[|before.live|..]
  }

  /** Only the transcript gets a message. */
  ghost predicate Notices(before: Run, r: Run, m: Message) {
    && |r.transcript| == |before.transcript| + 1 && r.transcript[..|before.transcript|] == before.transcript
    && r.transcript[|before.transcript|].msg == m
    && r == before.(transcript := r.transcript, nextId := r.nextId)
  }

  function ToModel(title: string, text: string): Message {
    Message(User, text, [], None, None, Some(title), true)
  }

  /** The recorded tokens or the estimate reach the threshold, or the estimate fills the context. */
  ghost predicate TooMuch(o: Options, r: Run) {
    var est := o.estimate(Contents(r.live));
    var threshold := o.compactAt * o.maxContext as real;
    o.maxContext > 0 && (r.tokens as real >= threshold || est as real >= threshold || est >= o.maxContext)
  }

  /** A summary takes the place of the live context and follows the transcript; without one the run ends. */
  ghost predicate Condenses(o: Options, before: Run, input: HeadInput, r: Run, stop: Option<Outcome>) {
    if input.summary.Some? && input.summary.value != "" then
      && stop == None && |r.live| == 1
      && r.live[0].msg == ToModel("Compaction Summary", o.frame(input.summary.value))
      && r == before.(live := r.live, transcript := before.transcript + r.live, nextId := r.nextId, tokens := 0)
    else
      && stop == Some(NoSummary)
      && if input.summaryAborted then r == before
         else Notices(before, r, Message(System, "Auto-compaction failed", [], None, None, None, false))
  }

  /** A tool message that packing has a text for gets it; any other is the same object. */
  ghost predicate IsPackedAs(was: Ref, text: Option<string>, now: Ref) {
    if was.msg.role == Tool && text.Some? then now.msg == was.msg.(content := text.value) else now == was
  }

  /** What is sent: the live context, packed, and a note if there is something to tell. The transcript from its
      checkpoint on is the same. */
  ghost predicate AsksWith(before: Run, input: HeadInput, asked: Run) {
    var n := |before.live|;
    && |asked.live| == n + (if input.context == "" then 0 else 1)
    && (forall i :: 0 <= i < n ==> IsPackedAs(before.live[i], input.pack(i), asked.live[i]))
    && (input.context != "" ==> asked.live[n].msg == ToModel("Context", CONTEXT_OPEN + input.context))
    && n <= |before.transcript| && asked.transcript == before.transcript[..|before.transcript| - n] + asked.live
    && asked == before.(live := asked.live, transcript := asked.transcript, nextId := asked.nextId,
                        steps := before.steps + 1)
  }

  ghost predicate IsFirstOfThree(attempt: nat -> Option<Turn>, turn: Option<Turn>) {
    match turn
    case None => attempt(0).None? && attempt(1).None? && attempt(2).None?
    case Some(_) => exists k: nat :: k < 3 && attempt(k) == turn && forall j: nat :: j < k ==> attempt(j).None?
  }

  /** The reply's text, humanized if the gate is on and has a different one for a turn without calls. */
  function ReplyText(o: Options, input: HeadInput, turn: Turn): string {
    if o.humanize && turn.calls == [] && !Blank(turn.content) && input.humanized.Some?
       && Trim(input.humanized.value) != Trim(turn.content)
    then input.humanized.value
    else turn.content
  }

  predicate SameCounts(a: Run, b: Run) {
    b.repairs == a.repairs && b.critics == a.critics && b.continues == a.continues
  }

  ghost predicate IsClip(text: string, clip: string) {
    clip <= text && (|text| <= 2500 ==> clip == text) && (|text| > 2500 ==> |clip| == 2500)
  }

  /** What comes after a reply: the answers to its calls, or else one nudge, from the first gate that has one in
      the order continuation, checks, critic; or nothing, and the run is over. */
  ghost predicate Follows(o: Options, asked: Run, input: HeadInput, turn: Turn, tail: seq<Message>, r: Run,
      stop: Option<Outcome>)
  {
    if turn.calls != [] then
      tail == input.toolMessages && stop == (if input.asksUser then Some(Paused) else None) && SameCounts(asked, r)
    else if turn.cutOff && asked.continues < 4 then
      && tail == [ToModel("Continue", "Continue your previous response")]
      && stop == None && SameCounts(asked.(continues := asked.continues + 1), r)
    else if o.verifyMode && asked.repairs < 3 && input.failingChecks.Some? then
      && (exists clip ::
            IsClip(input.failingChecks.value, clip) && tail == [ToModel("Verify", "VERIFICATION GATE" + clip)])
      && stop == None && SameCounts(asked.(repairs := asked.repairs + 1), r)
    else if o.criticMode && asked.critics < 2 && !Blank(input.diff) && input.rejection.Some? then
      && tail == [ToModel("Critic", "CODE REVIEW REJECTED" + input.rejection.value)]
      && stop == None && SameCounts(asked.(critics := asked.critics + 1), r)
    else tail == [] && stop == Some(Finished) && SameCounts(asked, r)
  }

  ghost predicate TakesTurn(o: Options, est: nat, input: HeadInput, asked: Run, turn: Turn, r: Run,
      stop: Option<Outcome>) {
    && r.tokens == (if turn.promptTokens.Some? then turn.promptTokens.value else est) && r.steps == asked.steps
    && if Blank(turn.content) && turn.calls == [] then
         && Adds(asked, r, [Message(Assistant, input.errorDetail, [], None, None, None, false)])
         && stop == Some(NoReply) && SameCounts(asked, r)
       else
         exists tail ::
           && Adds(asked, r,
                   [Message(Assistant, ReplyText(o, input, turn), turn.calls, None, None, None, false)] + tail)
           && Follows(o, asked, input, turn, tail, r, stop)
  }

  ghost predicate Replies(o: Options, est: nat, input: HeadInput, asked: Run, r: Run, stop: Option<Outcome>) {
    if input.streamAborted then r == asked && stop == Some(Stopped)
    else
      exists turn :: IsFirstOfThree(input.attempt, turn) &&
        match turn
        case None =>
          && Notices(asked, r, Message(Assistant, "[Run failed", [], None, None, Some("System"), false))
          && stop == Some(StreamFailed)
        case Some(t) => TakesTurn(o, est, input, asked, t, r, stop)
  }

  /** One pass: from the loop's variables before to those after, what was sent, and why it ended the run. */
  ghost predicate IsPass(o: Options, before: Run, input: HeadInput, r: Run, sent: seq<seq<Ref>>,
      stop: Option<Outcome>) {
    if input.aborted then r == before && sent == [] && stop == Some(Stopped)
    else if TooMuch(o, before) then sent == [] && Condenses(o, before, input, r, stop)
    else if before.steps >= o.maxSteps then
      && Notices(before, r, Message(System, "Reached the maximum number of agent steps", [], None, None, None, false))
      && sent == [] && stop == Some(StepLimit)
    else
      exists asked :: AsksWith(before, input, asked) && sent == [asked.live] &&
        Replies(o, o.estimate(Contents(before.live)), input, asked, r, stop)
  }

  // ----- the loop does that

  lemma {:induction false} PushAdds(r: Run, ms: seq<Message>)
    ensures Adds(r, Push(r, ms), ms)
  {
    assert Push(r, ms).live[|r.live|..] == Fresh(r.nextId, ms);
  }

  lemma {:induction false} NoteNotices(r: Run, m: Message)
    ensures Notices(r, Note(r, m), m)
    ensures Distinct(r.transcript, r.nextId) ==> Distinct(Note(r, m).transcript, Note(r, m).nextId)
  {
  }

  lemma {:induction false} AddsMore(a: Run, b: Run, c: Run, ms: seq<Message>, more: seq<Message>)
    requires Adds(a, b, ms) && Adds(b, c, more)
    ensures Adds(a, c, ms + more)
  {
    assert c.live[|a.live|..] == b.live[|a.live|..] + c.live[|b.live|..];
    assert c.live[..|a.live|] == b.live[..|a.live|];
  }

  /** `r` is `told`, packed if need be: the first `n` messages of the transcript stay. */
  ghost predicate PacksTo(told: Run, n: nat, pack: nat -> Option<string>, r: Run) {
    && |r.live| == |told.live| && n <= |told.transcript|
    && (forall i :: 0 <= i < |told.live| ==> IsPackedAs(told.live[i], pack(i), r.live[i]))
    && r.transcript == told.transcript[..n] + r.live
    && OnlyMessages(told, r)
  }

  /** The transcript from `n` on is the live context, and no two of its messages are one object. */
  ghost predicate Tails(transcript: seq<Ref>, live: seq<Ref>, n: nat) {
    && n + |live| == |transcript| && transcript[n..] == live
    && forall j, k :: 0 <= j < k < |transcript| ==> transcript[j].id != transcript[k].id
  }

  lemma {:induction false} SyncTails(r: Run)
    requires Sync(r)
    ensures |r.live| <= |r.transcript| && Tails(r.transcript, r.live, |r.transcript| - |r.live|)
  {
    ContextIsSuffix(r.transcript);
  }

  lemma {:induction false} PreparedPacks(r: Run, input: HeadInput, told: Run, n: nat)
    requires told == Push(r, ContextNote(input.context)) && Tails(told.transcript, told.live, n)
    ensures PacksTo(told, n, input.pack, Prepared(r, input))
  {
    if Repacks(told, input) {
      PackedTranscript(told, input.pack, n, Packed(told.live, told.nextId, input.pack));
    } else {
      forall i | 0 <= i < |told.live| ensures IsPackedAs(told.live[i], input.pack(i), told.live[i]) {
        assert Packed(told.live, told.nextId, input.pack)[i] == told.live[i];
      }
    }
  }

  lemma {:induction false} PackedTranscript(r: Run, pack: nat -> Option<string>, n: nat, packed: seq<Ref>)
    requires Tails(r.transcript, r.live, n) && packed == Packed(r.live, r.nextId, pack)
    ensures PacksTo(r, n, pack, Pack(r, pack))
  {
    SwappedTranscript(r.transcript, r.live, n, packed);
  }

  /** Packing leaves what is before the checkpoint alone, and replaces the rest in order. */
  lemma {:induction false} SwappedTranscript(transcript: seq<Ref>, live: seq<Ref>, n: nat, packed: seq<Ref>)
    requires Tails(transcript, live, n) && |packed| == |live|
    ensures SwapAll(live, packed, transcript) == transcript[..n] + packed
  {
    var swapped := SwapAll(live, packed, transcript);
    forall i | 0 <= i < |transcript| ensures swapped[i] == (transcript[..n] + packed)[i] {
      SwappedOne(transcript, live, n, packed, i);
    }
  }

  lemma {:induction false} SwappedOne(transcript: seq<Ref>, live: seq<Ref>, n: nat, packed: seq<Ref>, i: nat)
    requires Tails(transcript, live, n) && |packed| == |live| && i < |transcript|
    ensures Swap(live, packed, transcript[i]) == if i < n then transcript[i] else packed[i - n]
  {
    if i < n {
      forall j | 0 <= j < |live| ensures live[j] != transcript[i] { assert live[j] == transcript[n + j]; }
      SwapOther(live, packed, transcript[i]);
    } else {
      forall j, k | 0 <= j < k < |live| ensures live[j].id != live[k].id {
        assert live[j] == transcript[n + j] && live[k] == transcript[n + k];
      }
      SwapAt(live, packed, i - n);
    }
  }

  lemma {:induction false} ToldTails(r: Run, context: string)
    requires Sync(r)
    ensures var told := Push(r.(steps := r.steps + 1), ContextNote(context));
            |r.live| <= |r.transcript| && Tails(told.transcript, told.live, |r.transcript| - |r.live|)
  {
    var counted := r.(steps := r.steps + 1);
    OwnMessagesArePlain(context, []);
    PushKeepsSync(counted, ContextNote(context));
    SyncTails(r);
    SyncTails(Push(counted, ContextNote(context)));
  }

  lemma {:induction false} PreparedAsks(r: Run, input: HeadInput, told: Run, asked: Run)
    requires Sync(r) && told == Push(r.(steps := r.steps + 1), ContextNote(input.context)) && asked == Asked(r, input)
    ensures AsksWith(r, input, asked)
  {
    ToldTails(r, input.context);
    PreparedPacks(r.(steps := r.steps + 1), input, told, |r.transcript| - |r.live|);
    PacksAsks(r, input, told, asked);
  }

  lemma {:induction false} PacksAsks(r: Run, input: HeadInput, told: Run, asked: Run)
    requires |r.live| <= |r.transcript| && told == Push(r.(steps := r.steps + 1), ContextNote(input.context))
    requires PacksTo(told, |r.transcript| - |r.live|, input.pack, asked)
    ensures AsksWith(r, input, asked)
  {
    var n := |r.live|;
    assert told.transcript[..|r.transcript| - n] == r.transcript[..|r.transcript| - n];
    forall i | 0 <= i < |told.live| ensures IsPackedAs(told.live[i], input.pack(i), asked.live[i]) { }
    if input.context != "" {
      assert told.live[n] == Fresh(r.nextId, ContextNote(input.context))[0];
      assert IsPackedAs(told.live[n], input.pack(n), asked.live[n]);
    }
  }

  lemma {:induction false} TakenAdds(o: Options, r: Run, input: HeadInput, turn: Turn)
    requires Sync(r)
    ensures Adds(r, Taken(o, r, input, turn),
            [Message(Assistant, ReplyText(o, input, turn), turn.calls, None, None, None, false)])
    ensures OnlyMessages(r, Taken(o, r, input, turn))
  {
    var reply := AssistantMessage(turn.content, turn.calls);
    var told := Push(r, [reply]);
    PushAdds(r, [reply]);
    PushKeepsSync(r, [reply]);
    if Humanizes(o, input, turn) {
      LastRewritten(r, told, reply, input.humanized.value);
    }
  }

  /** Rewriting the last message leaves the others alone. */
  lemma {:induction false} LastRewritten(r: Run, told: Run, reply: Message, text: string)
    requires Sync(r) && told == Push(r, [reply])
    ensures Adds(r, Rewrite(told, Ref(r.nextId, reply), text), [reply.(content := text)])
  {
    var was, now := Ref(r.nextId, reply), Ref(told.nextId, reply.(content := text));
    LiveIsDistinct(r);
    assert Fresh(r.nextId, [reply]) == [was];
    OnlyLastSwaps(r.live, was, now);
    OnlyLastSwaps(r.transcript, was, now);
  }

  lemma {:induction false} OnlyLastSwaps(ms: seq<Ref>, was: Ref, now: Ref)
    requires forall i :: 0 <= i < |ms| ==> ms[i].id < was.id
    ensures SwapAll([was], [now], ms + [was]) == ms + [now]
  {
    forall i | 0 <= i < |ms| ensures Swap([was], [now], ms[i]) == ms[i] { SwapOther([was], [now], ms[i]); }
    SwapAt([was], [now], 0);
  }

  function Tail(o: Options, r: Run, input: HeadInput, turn: Turn): seq<Message> {
    if turn.calls != [] then input.toolMessages
    else if CutOff(r, turn) then [ContinueNote()]
    else if FailsChecks(o, r, input) then [VerifyNote(Clipped(input.failingChecks.value))]
    else if IsRejected(o, r, input) then [CriticNote(input.rejection.value)]
    else []
  }

  lemma {:induction false} AddsNothing(r: Run)
    ensures Adds(r, r, [])
  {
    assert r.transcript + r.live[|r.live|..] == r.transcript;
  }

  /** Counting does not change what is added. */
  lemma {:induction false} CountedAdds(r: Run, counted: Run, ms: seq<Message>)
    requires counted.live == r.live && counted.transcript == r.transcript
    ensures Adds(r, Push(counted, ms), ms)
  {
    PushAdds(counted, ms);
  }

  lemma {:induction false} FollowedAdds(o: Options, r: Run, input: HeadInput, turn: Turn)
    ensures Adds(r, Followed(o, r, input, turn), Tail(o, r, input, turn))
    ensures Followed(o, r, input, turn).tokens == r.tokens && Followed(o, r, input, turn).steps == r.steps
  {
    var tail := Tail(o, r, input, turn);
    if turn.calls != [] {
      CountedAdds(r, r, tail);
    } else if CutOff(r, turn) {
      CountedAdds(r, r.(continues := r.continues + 1), tail);
    } else if FailsChecks(o, r, input) {
      CountedAdds(r, r.(repairs := r.repairs + 1), tail);
    } else if IsRejected(o, r, input) {
      CountedAdds(r, r.(critics := r.critics + 1), tail);
    } else {
      AddsNothing(r);
    }
  }

  lemma {:induction false} FollowsAsTold(o: Options, asked: Run, r: Run, input: HeadInput, turn: Turn)
    requires SameCounts(asked, r)
    ensures Follows(o, asked, input, turn, Tail(o, r, input, turn), Followed(o, r, input, turn),
            StopAfter(o, r, input, turn))
  {
    if turn.calls == [] && !CutOff(r, turn) && FailsChecks(o, r, input) {
      assert IsClip(input.failingChecks.value, Clipped(input.failingChecks.value));
    }
  }

  lemma {:induction false} ConversedTakes(o: Options, asked: Run, input: HeadInput, est: nat, turn: Turn)
    requires Sync(asked)
    ensures TakesTurn(o, est, input, asked, turn, Conversed(o, asked, input, est, turn),
                      StopConversed(o, asked, input, est, turn))
  {
    var counted := asked.(tokens := Or(turn.promptTokens, est));
    if SaysNothing(turn) {
      PushAdds(counted, [AssistantMessage(input.errorDetail, [])]);
    } else {
      var taken := Taken(o, counted, input, turn);
      var r, tail := Followed(o, taken, input, turn), Tail(o, taken, input, turn);
      TakenAdds(o, counted, input, turn);
      FollowedAdds(o, taken, input, turn);
      AddsMore(counted, taken, r,
               [Message(Assistant, ReplyText(o, input, turn), turn.calls, None, None, None, false)], tail);
      FollowsAsTold(o, asked, taken, input, turn);
    }
  }

  lemma {:induction false} StreamedIsFirst(attempt: nat -> Option<Turn>)
    ensures IsFirstOfThree(attempt, Streamed(attempt))
  {
  }

  lemma {:induction false} ExchangedReplies(o: Options, r: Run, input: HeadInput)
    requires Sync(r)
    ensures Replies(o, o.estimate(Contents(r.live)), input, Asked(r, input), Exchanged(o, r, input),
                    StopExchanged(o, r, input))
  {
    var est, turn := o.estimate(Contents(r.live)), Streamed(input.attempt);
    StreamedIsFirst(input.attempt);
    AskedKeepsSync(r, input);
    if !input.streamAborted {
      match turn
      case None => NoteNotices(Asked(r, input), FailureNotice());
      case Some(t) => ConversedTakes(o, Asked(r, input), input, est, t);
    }
  }

  /** Whatever the inputs, a pass from lists in step is such a pass. */
  lemma {:induction false} PassSays(o: Options, r: Run, input: HeadInput)
    requires Sync(r)
    ensures IsPass(o, r, input, Passed(o, r, input), SentBy(o, r, input), StopOf(o, r, input))
  {
    assert TooMuch(o, r) <==> Over(o, r);
    if Sends(o, r, input) {
      PreparedAsks(r, input, Push(r.(steps := r.steps + 1), ContextNote(input.context)), Asked(r, input));
      ExchangedReplies(o, r, input);
    } else if !input.aborted {
      NoteNotices(r, SystemNotice("Auto-compaction failed"));
      NoteNotices(r, SystemNotice("Reached the maximum number of agent steps"));
    }
  }

  /** From head to head of every run, with the requests it sends: the last pass ends it with the outcome reported,
      the others go on. */
  lemma {:induction false} RunSays(o: Options, first: Run, horizon: nat, heads: seq<Run>, r: Run, outcome: Outcome,
      i: nat)
    requires IsWatch(o, first, horizon, heads, r, outcome) && WithinBudgets(o, first) && ToolsAnswer(o)
    requires Sync(first) && i < |heads|
    ensures IsPass(o, heads[i], o.input(i), if i + 1 < |heads| then heads[i + 1] else r, Requests(o)(i, heads[i]),
                   if i + 1 == |heads| && outcome != Running then Some(outcome) else None)
  {
    EveryHeadReloads(o, first, horizon, heads, r, outcome, i);
    PassSays(o, heads[i], o.input(i));
    assert Follower(heads, r, i) == Passes(o)(i, heads[i]);
    if i + 1 < |heads| {
      NextHead(o, first, horizon, heads, r, outcome, i);
    } else if outcome == Running {
      assert Stops(o)(i, heads[i]).None?;
    }
  }
}
