/** Reading a run's event stream: text arrives in pieces, frames end at an empty line, and nothing is
    delivered after the run's last event. */
module RunStream {
  import opened Text

  /** A parsed frame. `kind` is the event's type; JSON that is no event parses to nothing. */
  datatype Event = State(snapshot: string) | Other(kind: string, payload: string)

  datatype Delivery = Snapshot(snapshot: string) | Deliver(event: Event)

  predicate IsTerminal(e: Event) {
    e.Other? && (e.kind == "done" || e.kind == "error")
  }

  // ----- frames

  /** Position of the first empty line. */
  function IndexOfBreak(s: string): Option<nat> {
    FirstDouble(s, '\n')
  }

  /** The complete frames of a text. */
  function Frames(s: string): seq<string>
    decreases |s|
  {
    match IndexOfBreak(s)
    case None => []
    case Some(i) => [s[..i]] + Frames(s[i + 2..])
  }

  /** What follows the last complete frame. */
  function Rest(s: string): string
    decreases |s|
  {
    match IndexOfBreak(s)
    case None => s
    case Some(i) => Rest(s[i + 2..])
  }

  /** More text leaves the frames so far alone, even when it completes a separator. */
  lemma {:induction false} FramesConcat(a: string, b: string)
    ensures Frames(a + b) == Frames(a) + Frames(Rest(a) + b)
    ensures Rest(a + b) == Rest(Rest(a) + b)
    decreases |a|
  {
    match IndexOfBreak(a)
    case None =>
      NoFrame(a);
      assert [] + Frames(a + b) == Frames(a + b);
    case Some(i) =>
      FirstFrame(a, b, i);
      var tail := a[i + 2..];
      FramesConcat(tail, b);
      Regroup([a[..i]], Frames(tail), Frames(Rest(tail) + b));
  }

  lemma {:induction false} NoFrame(a: string)
    requires IndexOfBreak(a).None?
    ensures Frames(a) == [] && Rest(a) == a
  {
  }

  lemma {:induction false} FirstFrame(a: string, b: string, i: nat)
    requires IndexOfBreak(a) == Some(i)
    ensures i + 2 <= |a|
    ensures Frames(a) == [a[..i]] + Frames(a[i + 2..]) && Rest(a) == Rest(a[i + 2..])
    ensures Frames(a + b) == [a[..i]] + Frames(a[i + 2..] + b) && Rest(a + b) == Rest(a[i + 2..] + b)
  {
    SameBreak(a, b, i);
    assert (a + b)[..i] == a[..i] && (a + b)[i + 2..] == a[i + 2..] + b;
  }

  lemma {:induction false} SameBreak(a: string, b: string, i: nat)
    requires IndexOfBreak(a) == Some(i)
    ensures IndexOfBreak(a + b) == Some(i)
  {
    assert DoubleAt(a + b, '\n', i);
    assert forall j: nat :: j < i ==> (DoubleAt(a + b, '\n', j) <==> DoubleAt(a, '\n', j));
    var f := IndexOfBreak(a + b);
    assert f.Some?;
  }

  // ----- the data of a frame

  /** The value of a `data` line, one leading space removed. */
  function DataValue(line: string): Option<string> {
    if "data: " <= line then Some(line[6..])
    else if "data:" <= line then Some(line[5..])
    else None
  }

  /** A `data:` line carries what follows the colon, without one space if there is one; no other line does. */
  lemma {:induction false} DataOfLine(line: string)
    ensures "data:" <= line ==>
              DataValue(line) == Some(if |line| > 5 && line[5] == ' ' then line[6..] else line[5..])
    ensures !("data:" <= line) ==> DataValue(line) == None
  {
  }

  function DataValues(lines: seq<string>): seq<string> {
    if lines == [] then []
    else
      var n := |lines| - 1;
      DataValues(lines[..n]) + match DataValue(lines[n]) case None => [] case Some(v) => [v]
  }

  /** Lines joined as the client's loop joins them. */
  function Gathered(values: seq<string>): string {
    if values == [] then ""
    else
      var data := Gathered(values[..|values| - 1]);
      (if data != "" then data + "\n" else "") + values[|values| - 1]
  }

  method FrameData(frame: string) returns (data: string)
    ensures data == Gathered(DataValues(Split(frame, '\n')))
  {
    var lines := Split(frame, '\n');
    data := "";
    for i := 0 to |lines|
      invariant data == Gathered(DataValues(lines[..i]))
    {
      var line := lines[i];
      OneMoreLine(lines, i);
      if "data: " <= line {
        data := (if data != "" then data + "\n" else "") + line[6..];
      } else if "data:" <= line {
        data := (if data != "" then data + "\n" else "") + line[5..];
      }
    }
    assert lines[..|lines|] == lines;
  }

  lemma {:induction false} OneMoreLine(lines: seq<string>, i: nat)
    requires i < |lines|
    ensures var data := Gathered(DataValues(lines[..i]));
            Gathered(DataValues(lines[..i + 1])) ==
            match DataValue(lines[i]) case None => data case Some(v) => (if data != "" then data + "\n" else "") + v
  {
    assert lines[..i + 1][..i] == lines[..i];
    GatherOne(DataValues(lines[..i]), DataValue(lines[i]));
  }

  lemma {:induction false} GatherOne(values: seq<string>, v: Option<string>)
    ensures Gathered(values + match v case None => [] case Some(x) => [x]) ==
            match v
            case None => Gathered(values)
            case Some(x) => (if Gathered(values) != "" then Gathered(values) + "\n" else "") + x
  {
    match v
    case None => assert values + [] == values;
    case Some(x) => assert (values + [x])[..|values|] == values;
  }

  /** The data buffer of section 9.2.6 of the WHATWG HTML Living Standard: every value with a line
      break after it, and the last break removed. */
  function StandardData(values: seq<string>): string {
    Join(values, '\n')
  }

  lemma {:induction false} JoinLast(values: seq<string>, v: string)
    requires values != []
    ensures Join(values + [v], '\n') == Join(values, '\n') + "\n" + v
  {
    if |values| == 1 {
      assert (values + [v])[1..] == [v];
    } else {
      assert (values + [v])[1..] == values[1..] + [v];
      JoinLast(values[1..], v);
    }
  }

  lemma {:induction false} GatheredShorter(values: seq<string>)
    requires values != []
    ensures |Gathered(values)| <= |StandardData(values)|
    ensures |values| > 1 && values[0] == "" ==> |Gathered(values)| < |StandardData(values)|
    decreases |values|
  {
    var n := |values| - 1;
    if n > 0 {
      GatheredShorter(values[..n]);
      JoinLast(values[..n], values[n]);
      assert values == values[..n] + [values[n]];
      if n == 1 { assert values[..1] == [values[0]]; }
    }
  }

  /** The client gathers the standard's data exactly when the first value is not empty, or alone. */
  lemma {:induction false} DataIsStandardIff(values: seq<string>)
    ensures Gathered(values) == StandardData(values) <==> |values| <= 1 || values[0] != ""
  {
    if |values| > 1 && values[0] == "" {
      GatheredShorter(values);
    } else if values != [] && values[0] != "" {
      GatheredAll(values);
    } else if |values| == 1 {
      assert values[..0] == [];
    }
  }

  lemma {:induction false} GatheredAll(values: seq<string>)
    requires values != [] && values[0] != ""
    ensures Gathered(values) == StandardData(values) && Gathered(values) != ""
    decreases |values|
  {
    var n := |values| - 1;
    if n > 0 {
      GatheredAll(values[..n]);
      JoinLast(values[..n], values[n]);
      assert values == values[..n] + [values[n]];
    }
  }

  // ----- what is delivered

  /** Where the reader stands: whether the state frame has come, whether the run has ended, and what
      was handed on. */
  datatype Reader = Reader(sawState: bool, terminal: bool, delivered: seq<Delivery>)

  const START := Reader(false, false, [])

  function OnEvent(r: Reader, e: Event): Reader {
    if e.State? then
      if r.sawState then r else r.(sawState := true, delivered := r.delivered + [Snapshot(e.snapshot)])
    else
      r.(terminal := IsTerminal(e), delivered := r.delivered + [Deliver(e)])
  }

  /** The event a frame carries, if any. */
  function EventOf(parse: string -> Option<Event>, frame: string): Option<Event> {
    var data := Gathered(DataValues(Split(frame, '\n')));
    if data == "" then None else parse(data)
  }

  /** A frame whose data lines are empty, or that has none, carries no event. */
  lemma {:induction false} EmptyFrame(parse: string -> Option<Event>, frame: string)
    requires AllEmpty(DataValues(Split(frame, '\n')))
    ensures EventOf(parse, frame) == None
  {
    GatheredNothing(DataValues(Split(frame, '\n')));
  }

  /** Another one's values are parsed, joined by line breaks. */
  lemma {:induction false} FrameCarries(parse: string -> Option<Event>, frame: string)
    requires var values := DataValues(Split(frame, '\n')); values != [] && values[0] != ""
    ensures EventOf(parse, frame) == parse(Join(DataValues(Split(frame, '\n')), '\n'))
  {
    GatheredAll(DataValues(Split(frame, '\n')));
  }

  predicate AllEmpty(values: seq<string>) {
    forall i :: 0 <= i < |values| ==> values[i] == ""
  }

  lemma {:induction false} GatheredNothing(values: seq<string>)
    requires AllEmpty(values)
    ensures Gathered(values) == ""
  {
    if values != [] { GatheredNothing(values[..|values| - 1]); }
  }

  function OnFrame(parse: string -> Option<Event>, r: Reader, frame: string): Reader {
    if r.terminal then r
    else match EventOf(parse, frame) case None => r case Some(e) => OnEvent(r, e)
  }

  function OnFrames(parse: string -> Option<Event>, r: Reader, frames: seq<string>): Reader
    decreases |frames|
  {
    if frames == [] then r else OnFrames(parse, OnFrame(parse, r, frames[0]), frames[1..])
  }

  lemma {:induction false} OnFramesConcat(parse: string -> Option<Event>, r: Reader, a: seq<string>, b: seq<string>)
    ensures OnFrames(parse, r, a + b) == OnFrames(parse, OnFrames(parse, r, a), b)
    decreases |a|
  {
    if a == [] {
      assert a + b == b;
    } else {
      assert (a + b)[1..] == a[1..] + b;
      OnFramesConcat(parse, OnFrame(parse, r, a[0]), a[1..], b);
    }
  }

  lemma {:induction false} TerminalStays(parse: string -> Option<Event>, r: Reader, frames: seq<string>)
    requires r.terminal
    ensures OnFrames(parse, r, frames) == r
  {
    if frames != [] { TerminalStays(parse, r, frames[1..]); }
  }

  /** Where the reader stands after a text. */
  function Read(parse: string -> Option<Event>, text: string): Reader {
    OnFrames(parse, START, Frames(text))
  }

  class Stream {
    const parse: string -> Option<Event>
    var closed: bool
    var terminal: bool
    var delivered: seq<Delivery>

    constructor (parse: string -> Option<Event>)
      ensures this.parse == parse && !closed && !terminal && delivered == []
    {
      this.parse := parse;
      closed, terminal, delivered := false, false, [];
    }

    /** Read one response chunk by chunk. `closes(i)` says whether the user has closed the stream by
        the time i chunks are handled; `taken` is how many were. */
    method Consume(chunks: seq<string>, closes: nat -> bool) returns (taken: nat)
      requires !terminal
      modifies this
      ensures taken <= |chunks| && (taken < |chunks| ==> terminal || closes(taken))
      ensures terminal == Read(parse, Flatten(chunks[..taken])).terminal
      ensures delivered == old(delivered) + Read(parse, Flatten(chunks[..taken])).delivered
    {
      var buf, sawStateFrame := "", false;
      taken := 0;
      ghost var before := delivered;
      while taken < |chunks|
        invariant taken <= |chunks| && !terminal
        invariant buf == Rest(Flatten(chunks[..taken]))
        invariant Stands(before, sawStateFrame, Read(parse, Flatten(chunks[..taken])))
      {
        ghost var soFar := Flatten(chunks[..taken]);
        assert chunks[..taken + 1][..taken] == chunks[..taken];
        FramesConcat(soFar, chunks[taken]);
        OnFramesConcat(parse, START, Frames(soFar), Frames(Rest(soFar) + chunks[taken]));
        buf := buf + chunks[taken];
        taken := taken + 1;
        buf, sawStateFrame := TakeFrames(before, buf, sawStateFrame, Read(parse, soFar));
        if terminal {
          return;
        }
        if closes(taken) {
          closed := true;
          return;
        }
      }
    }

    /** The fields and the local flag agree with a reader that started after `before`. */
    ghost predicate Stands(before: seq<Delivery>, sawStateFrame: bool, r: Reader)
      reads this
    {
      r.sawState == sawStateFrame && r.terminal == terminal && delivered == before + r.delivered
    }

    /** The inner loop: every complete frame in the buffer, until the run's last event. */
    method TakeFrames(ghost before: seq<Delivery>, all: string, saw: bool, ghost r: Reader)
      returns (buf: string, sawStateFrame: bool)
      requires Stands(before, saw, r) && !terminal
      modifies this
      ensures Stands(before, sawStateFrame, OnFrames(parse, r, Frames(all)))
      ensures !terminal ==> buf == Rest(all)
      ensures closed == old(closed)
    {
      buf, sawStateFrame := all, saw;
      ghost var now := r;
      var sep := IndexOfBreak(buf);
      while sep.Some?
        invariant sep == IndexOfBreak(buf) && !terminal && closed == old(closed)
        invariant Rest(buf) == Rest(all)
        invariant Stands(before, sawStateFrame, now)
        invariant OnFrames(parse, now, Frames(buf)) == OnFrames(parse, r, Frames(all))
        decreases |buf|
      {
        var frame := buf[..sep.value];
        buf := buf[sep.value + 2..];
        sep := IndexOfBreak(buf);
        sawStateFrame := HandleFrame(before, frame, sawStateFrame, now);
        now := OnFrame(parse, now, frame);
        if terminal {
          TerminalStays(parse, now, Frames(buf));
          return;
        }
      }
    }

    method HandleFrame(ghost before: seq<Delivery>, frame: string, saw: bool, ghost r: Reader)
      returns (sawStateFrame: bool)
      requires Stands(before, saw, r) && !terminal
      modifies this
      ensures Stands(before, sawStateFrame, OnFrame(parse, r, frame)) && closed == old(closed)
    {
      sawStateFrame := saw;
      var ev := ParseFrame(frame);
      match ev
      case None =>
      case Some(State(snapshot)) =>
        if !sawStateFrame {
          sawStateFrame := true;
          delivered := delivered + [Snapshot(snapshot)];
        }
      case Some(other) =>
        delivered := delivered + [Deliver(other)];
        if other.kind == "done" || other.kind == "error" {
          terminal := true;
        }
    }

    method ParseFrame(frame: string) returns (e: Option<Event>)
      ensures e == EventOf(parse, frame)
    {
      var data := FrameData(frame);
      e := if data == "" then None else parse(data);
    }
  }

  /** How the text was cut into chunks does not show: a reader that nobody closes ends where one
      reading the whole text at once does. */
  lemma {:induction false} ChunkingDoesNotShow(parse: string -> Option<Event>, chunks: seq<string>, taken: nat)
    requires taken <= |chunks|
    requires taken < |chunks| ==> Read(parse, Flatten(chunks[..taken])).terminal
    ensures Read(parse, Flatten(chunks[..taken])) == Read(parse, Flatten(chunks))
  {
    if taken == |chunks| {
      assert chunks[..taken] == chunks;
    } else {
      ConcatParts(chunks, taken);
      var a, b := Flatten(chunks[..taken]), Flatten(chunks[taken..]);
      FramesConcat(a, b);
      OnFramesConcat(parse, START, Frames(a), Frames(Rest(a) + b));
      TerminalStays(parse, Read(parse, a), Frames(Rest(a) + b));
    }
  }

  lemma {:induction false} ConcatParts(chunks: seq<string>, n: nat)
    requires n <= |chunks|
    ensures Flatten(chunks) == Flatten(chunks[..n]) + Flatten(chunks[n..])
    decreases |chunks|
  {
    if n == |chunks| {
      assert chunks[..n] == chunks && Flatten(chunks[n..]) == "";
    } else {
      var m := |chunks| - 1;
      ConcatParts(chunks[..m], n);
      assert chunks[..m][..n] == chunks[..n] && chunks[..m][n..] == chunks[n..][..m - n];
      assert chunks[n..][|chunks[n..]| - 1] == chunks[m];
    }
  }

  // ----- in terms of the events

  /** The events of the frames that carry one. */
  function Events(parse: string -> Option<Event>, frames: seq<string>): seq<Event> {
    if frames == [] then []
    else (match EventOf(parse, frames[0]) case None => [] case Some(e) => [e]) + Events(parse, frames[1..])
  }

  /** Up to and including the first terminal event. */
  function Through(es: seq<Event>): seq<Event> {
    if es == [] then [] else [es[0]] + if IsTerminal(es[0]) then [] else Through(es[1..])
  }

  /** The first state frame is a snapshot, later ones are dropped, all else goes on as it is. */
  function Shown(sawState: bool, es: seq<Event>): seq<Delivery>
    decreases |es|
  {
    if es == [] then []
    else if es[0].State? then (if sawState then [] else [Snapshot(es[0].snapshot)]) + Shown(true, es[1..])
    else [Deliver(es[0])] + Shown(sawState, es[1..])
  }

  ghost predicate Ends(es: seq<Event>) {
    exists i :: 0 <= i < |es| && IsTerminal(es[i])
  }

  lemma {:induction false} EndsStep(e: Event, rest: seq<Event>)
    ensures Ends([e] + rest) <==> IsTerminal(e) || Ends(rest)
    ensures ([e] + rest)[1..] == rest
  {
    var es := [e] + rest;
    if IsTerminal(e) { assert IsTerminal(es[0]); }
    if Ends(rest) {
      var i :| 0 <= i < |rest| && IsTerminal(rest[i]);
      assert IsTerminal(es[i + 1]);
    }
  }

  lemma {:induction false} DeliversFrom(parse: string -> Option<Event>, r: Reader, frames: seq<string>)
    requires !r.terminal
    ensures var r', es := OnFrames(parse, r, frames), Events(parse, frames);
            r'.delivered == r.delivered + Shown(r.sawState, Through(es)) && (r'.terminal <==> Ends(es))
    decreases |frames|
  {
    if frames != [] {
      var r', rest := OnFrame(parse, r, frames[0]), Events(parse, frames[1..]);
      match EventOf(parse, frames[0])
      case None =>
        assert [] + rest == rest;
        DeliversFrom(parse, r', frames[1..]);
      case Some(e) =>
        EndsStep(e, rest);
        ShownStep(r, e, rest);
        if IsTerminal(e) {
          TerminalStays(parse, r', frames[1..]);
        } else {
          DeliversFrom(parse, r', frames[1..]);
        }
    }
  }

  /** One event more: what it adds is in front of what the rest adds. */
  lemma {:induction false} ShownStep(r: Reader, e: Event, rest: seq<Event>)
    requires !r.terminal
    ensures OnEvent(r, e).terminal == IsTerminal(e)
    ensures r.delivered + Shown(r.sawState, Through([e] + rest)) ==
            OnEvent(r, e).delivered + (if IsTerminal(e) then [] else Shown(OnEvent(r, e).sawState, Through(rest)))
  {
    var more := if IsTerminal(e) then [] else Through(rest);
    assert ([e] + rest)[1..] == rest && Through([e] + rest) == [e] + more;
    Regroup(r.delivered, Added(r.sawState, e), Shown(r.sawState || e.State?, more));
    assert OnEvent(r, e).delivered == r.delivered + Added(r.sawState, e);
  }

  function Added(sawState: bool, e: Event): seq<Delivery> {
    if e.Other? then [Deliver(e)] else if sawState then [] else [Snapshot(e.snapshot)]
  }

  /** What a text delivers: its events through the first `done` or `error`, and at most one snapshot. */
  lemma {:induction false} ReadDelivers(parse: string -> Option<Event>, text: string)
    ensures var r, es := Read(parse, text), Events(parse, Frames(text));
            && r.delivered == Shown(false, Through(es))
            && (r.terminal <==> Ends(es))
            && (forall i, j :: 0 <= i < j < |r.delivered| ==> !(r.delivered[i].Snapshot? && r.delivered[j].Snapshot?))
            && NothingAfterTheEnd(r.delivered)
    ensures var r, es := Read(parse, text), Events(parse, Frames(text));
            r.terminal <==> exists i :: 0 <= i < |es| && es[i].Other? && es[i].kind in {"done", "error"}
  {
    DeliversFrom(parse, START, Frames(text));
    ShownOnce(false, Through(Events(parse, Frames(text))));
    ThroughStops(Events(parse, Frames(text)));
    ShownKeepsLast(false, Through(Events(parse, Frames(text))));
  }

  lemma {:induction false} ShownOnce(sawState: bool, es: seq<Event>)
    ensures forall i, j :: 0 <= i < j < |Shown(sawState, es)| ==>
            !(Shown(sawState, es)[i].Snapshot? && Shown(sawState, es)[j].Snapshot?)
    ensures sawState ==> forall i :: 0 <= i < |Shown(sawState, es)| ==> Shown(sawState, es)[i].Deliver?
    decreases |es|
  {
    if es != [] {
      ShownOnce(true, es[1..]);
      ShownOnce(sawState, es[1..]);
    }
  }

  ghost predicate OnlyLastIsTerminal(es: seq<Event>) {
    forall i :: 0 <= i < |es| - 1 ==> !IsTerminal(es[i])
  }

  lemma {:induction false} ThroughStops(es: seq<Event>)
    ensures OnlyLastIsTerminal(Through(es))
  {
    if es != [] && !IsTerminal(es[0]) {
      ThroughStops(es[1..]);
      assert Through(es)[1..] == Through(es[1..]);
    }
  }

  ghost predicate NothingAfterTheEnd(ds: seq<Delivery>) {
    forall i :: 0 <= i < |ds| - 1 && ds[i].Deliver? ==> !IsTerminal(ds[i].event)
  }

  lemma {:induction false} ShownKeepsLast(sawState: bool, es: seq<Event>)
    requires OnlyLastIsTerminal(es)
    ensures NothingAfterTheEnd(Shown(sawState, es))
    decreases |es|
  {
    if es != [] {
      var saw := es[0].State? || sawState;
      assert OnlyLastIsTerminal(es[1..]) by { assert forall i :: 0 <= i < |es| - 1 ==> es[1..][i] == es[i + 1]; }
      ShownKeepsLast(saw, es[1..]);
      assert [es[0]] + es[1..] == es;
    }
  }

}
