/** What a round of the tool loop appends, message by message, where it stands in the result, and why the loop
    stops. */
module ToolRounds {
  import opened Text
  import opened Transcript
  import opened ToolLoop

  // ----- the description of a round

  /** The round yields no assistant turn. */
  predicate Fails(t: TurnInput) {
    (t.streamError.Some? && !t.abortedStreaming) || (t.calls == [] && Blank(t.content))
  }

  predicate IsContextNote(m: Message, text: string) {
    && m.role == User && m.calls == [] && m.callId == None && m.displayName == Some("Context") && m.collapsed
    && m.content == CONTEXT_OPEN + text
  }

  /** How many messages the round appends before the reply. */
  function Before(o: Options, t: TurnInput): nat {
    if o.appendDateTime && t.clock != "" then 1 else 0
  }

  predicate IsReply(t: TurnInput, m: Message) {
    && m.role == Assistant && m.calls == t.calls && m.callId == None && m.displayName == None
    && m.content == (if t.hook.content.Some? then t.hook.content.value else t.content)
  }

  /** The calls are run: the hook says so, or says nothing and there are some. */
  predicate Runs(t: TurnInput) {
    !t.hook.halt && (t.hook.proceed == Some(true) || (t.hook.proceed == None && t.calls != []))
  }

  /** The model asked only for tools it was not offered. */
  predicate Corrects(t: TurnInput) {
    !t.hook.halt && t.hook.proceed != Some(true) && t.calls == [] && t.dropped != [] && !t.abortedHooking
  }

  predicate StandsAt(text: string, name: string, i: nat) {
    i + |name| <= |text| && text[i..i + |name|] == name
  }

  ghost predicate Mentions(text: string, name: string) {
    exists i: nat :: StandsAt(text, name, i)
  }

  /** Tells the model which tools it called in vain, and which there are. */
  ghost predicate IsCorrection(o: Options, t: TurnInput, m: Message) {
    && m.role == User && m.calls == [] && m.callId == None && m.displayName == None && !m.collapsed
    && (forall name :: name in t.dropped ==> Mentions(m.content, name))
    && (forall name :: name in o.offered ==> Mentions(m.content, name))
  }

  ghost predicate IsRound(o: Options, t: TurnInput, ms: seq<Message>) {
    if t.abortedBefore then ms == []
    else
      var b, n := Before(o, t), |t.hook.inject|;
      && b <= |ms| && (b == 1 ==> IsContextNote(ms[0], t.clock))
      && if Fails(t) then |ms| == b
         else
           && b + 1 + n <= |ms| && IsReply(t, ms[b]) && ms[b + 1..b + 1 + n] == t.hook.inject
           && IsClosing(o, t, ms[b + 1 + n..])
  }

  ghost predicate IsClosing(o: Options, t: TurnInput, ms: seq<Message>) {
    if Runs(t) then |ms| == |t.calls| && forall i :: 0 <= i < |ms| ==> IsAnswer(o, t.run, i, t.calls[i], ms[i])
    else if Corrects(t) then |ms| == 1 && IsCorrection(o, t, ms[0])
    else ms == []
  }

  /** Why the loop stops after the round, if it does. */
  predicate StopsAs(t: TurnInput, stop: Option<Stop>) {
    if t.abortedBefore then stop == Some(Aborted)
    else if t.streamError.Some? && !t.abortedStreaming then stop == Some(Threw(t.streamError.value))
    else if t.calls == [] && Blank(t.content) then stop == Some(Empty)
    else if t.hook.halt then stop == Some(Halted)
    else if Runs(t) || Corrects(t) then stop == None
    else stop == Some(Done)
  }

  // ----- the loop does that

  lemma {:induction false} MentionsInside(a: string, text: string, b: string, name: string)
    requires Mentions(text, name)
    ensures Mentions(a + text + b, name)
  {
    var i: nat :| StandsAt(text, name, i);
    var whole := a + text + b;
    assert whole[|a|..|a| + |text|] == text;
    assert whole[|a| + i..|a| + i + |name|] == text[i..i + |name|];
    assert StandsAt(whole, name, |a| + i);
  }

  lemma {:induction false} ListedMentions(names: seq<string>, name: string)
    requires name in names
    ensures Mentions(Listed(names), name)
  {
    if names[0] == name {
      var rest := if |names| == 1 then "" else ", " + Listed(names[1..]);
      assert StandsAt(name, name, 0);
      MentionsInside("", name, rest, name);
      assert Listed(names) == "" + name + rest;
    } else {
      ListedMentions(names[1..], name);
      MentionsInside(names[0] + ", ", Listed(names[1..]), "", name);
      assert Listed(names) == names[0] + ", " + Listed(names[1..]) + "";
    }
  }

  lemma {:induction false} DistinctHas(names: seq<string>, name: string)
    ensures name in Distinct(names) <==> name in names
  {
    if names != [] {
      var n := |names| - 1;
      DistinctHas(names[..n], name);
      assert names == names[..n] + [names[n]];
    }
  }

  lemma {:induction false} CorrectionMentions(dropped: seq<string>, offered: seq<string>, name: string)
    ensures name in dropped ==> Mentions(Correction(dropped, offered).content, name)
    ensures name in offered ==> Mentions(Correction(dropped, offered).content, name)
  {
    var ignored := Listed(Distinct(dropped));
    if name in dropped {
      DistinctHas(dropped, name);
      ListedMentions(Distinct(dropped), name);
      MentionsEarly(MARKUP_FOR, ignored, WAS_IGNORED, NOT_AVAILABLE, Listed(offered), CALL_ONE, name);
      MentionsInside(MARKUP_FOR, ignored, WAS_IGNORED + NO_TOOLS, name);
      Regroup(MARKUP_FOR + ignored, WAS_IGNORED, NO_TOOLS);
    }
    if name in offered {
      ListedMentions(offered, name);
      MentionsInside(MARKUP_FOR + ignored + WAS_IGNORED + NOT_AVAILABLE, Listed(offered), CALL_ONE, name);
    }
  }

  lemma {:induction false} MentionsEarly(a: string, text: string, b: string, c: string, d: string, e: string,
      name: string)
    requires Mentions(text, name)
    ensures Mentions(a + text + b + c + d + e, name)
  {
    MentionsInside(a, text, b, name);
    MentionsInside("", a + text + b, c + d + e, name);
    assert "" + (a + text + b) + (c + d + e) == a + text + b + c + d + e;
  }

  lemma {:induction false} ClosingReads(o: Options, t: TurnInput)
    ensures IsClosing(o, t, Closing(o, t))
  {
    if Corrects(t) {
      forall name ensures name in t.dropped ==> Mentions(Correction(t.dropped, o.offered).content, name)
                  ensures name in o.offered ==> Mentions(Correction(t.dropped, o.offered).content, name)
      {
        CorrectionMentions(t.dropped, o.offered, name);
      }
    }
  }

  lemma {:induction false} RoundReads(o: Options, t: TurnInput)
    ensures IsRound(o, t, RoundOf(o, t))
  {
    if !t.abortedBefore {
      if Fails(t) {
        assert RoundOf(o, t) == NoteOf(o, t);
      } else {
        ClosingReads(o, t);
        SpokenRound(o, t, NoteOf(o, t), AssistantMessage(Or(t.hook.content, t.content), t.calls), Closing(o, t));
      }
    }
  }

  lemma {:induction false} SpokenRound(o: Options, t: TurnInput, note: seq<Message>, reply: Message,
      closing: seq<Message>)
    requires !t.abortedBefore && !Fails(t) && |note| == Before(o, t) && (note != [] ==> IsContextNote(note[0], t.clock))
    requires IsReply(t, reply) && IsClosing(o, t, closing)
    ensures IsRound(o, t, note + ([reply] + t.hook.inject + closing))
  {
    var ms, b, n := note + ([reply] + t.hook.inject + closing), |note|, |t.hook.inject|;
    assert ms[b] == reply;
    assert ms[b + 1..b + 1 + n] == t.hook.inject;
    assert ms[b + 1 + n..] == closing;
  }

  lemma {:induction false} StopReads(t: TurnInput)
    ensures StopsAs(t, StopOf(t))
  {
  }

  /** Where the messages of round k begin. */
  ghost function Start(o: Options, k: nat): nat {
    |Grown(o.messages, Rounds(o), k)|
  }

  /** The messages of round k. */
  ghost function Slice(o: Options, r: Result, k: nat): seq<Message>
    requires Start(o, k) <= Start(o, k + 1) <= |r.messages|
  {
    r.messages[Start(o, k)..Start(o, k + 1)]
  }

  lemma {:induction false} RoundIsSlice(o: Options, r: Result, k: nat)
    requires IsRunOf(o, r) && k < r.Rounds()
    ensures Grown(o.messages, Rounds(o), k) + RoundOf(o, o.input(k)) <= r.messages
    ensures Start(o, k) <= Start(o, k + 1) <= |r.messages| && Slice(o, r, k) == RoundOf(o, o.input(k))
  {
    var from, round := Grown(o.messages, Rounds(o), k), RoundOf(o, o.input(k));
    GrownIsMonotone(o.messages, Rounds(o), k + 1, r.Rounds());
    assert Grown(o.messages, Rounds(o), k + 1) == from + round;
    PartOfPrefix(from, round, r.messages);
  }

  lemma {:induction false} PartOfPrefix<T>(a: seq<T>, b: seq<T>, whole: seq<T>)
    requires a + b <= whole
    ensures |a| + |b| <= |whole| && whole[|a|..|a| + |b|] == b
  {
    assert whole[..|a| + |b|] == a + b;
  }

  /** The k-th request is the messages up to round k with its note. */
  lemma {:induction false} RequestReads(o: Options, r: Result, k: nat)
    requires IsRunOf(o, r) && k < |r.requests|
    ensures var n := Start(o, k) + Before(o, o.input(k)); n <= |r.messages| && r.requests[k] == r.messages[..n]
  {
    SentRound(Stops(o), r, k);
    NoteComesFirst(o, o.input(k));
    RoundIsSlice(o, r, k);
    var from, note := Grown(o.messages, Rounds(o), k), NoteOf(o, o.input(k));
    assert from + note <= from + RoundOf(o, o.input(k)) <= r.messages;
  }

  /** The result of a run is the initial messages and the rounds played, one after the other. */
  lemma {:induction false} RunReads(o: Options, r: Result, k: nat)
    requires IsRunOf(o, r) && k < r.Rounds()
    ensures Start(o, 0) == |o.messages| && o.messages <= r.messages && Start(o, r.Rounds()) == |r.messages|
    ensures Start(o, k) <= Start(o, k + 1) <= |r.messages| && IsRound(o, o.input(k), Slice(o, r, k))
  {
    GrownIsMonotone(o.messages, Rounds(o), 0, r.Rounds());
    RoundIsSlice(o, r, k);
    RoundReads(o, o.input(k));
  }

  /** It goes on after each round but the last, which stops it as reported; with no round left to stop it, it has
      used its steps. */
  lemma {:induction false} RunStopsAs(o: Options, r: Result, k: nat)
    requires IsRunOf(o, r)
    ensures k < r.Rounds() ==> StopsAs(o.input(k), if k < r.turns then None else Some(r.stop))
    ensures r.stop == Steps <==> r.turns == o.maxSteps
    ensures r.turns <= o.maxSteps && r.Rounds() == if r.stop == Steps then r.turns else r.turns + 1
  {
    StopReads(o.input(k));
    if k < r.turns { assert Stops(o)(k).None?; }
  }
}
