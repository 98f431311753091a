/** Where every message of a repaired history comes from, and what it says. */
module RepairPieces {
  import opened Text
  import opened Transcript

  /** An output message and where it came from: the message itself, an orphaned tool result, or an open call. */
  datatype Piece = Kept(msg: Message) | Converted(msg: Message, orphan: Message) | Added(msg: Message, call: ToolCall)

  /** The history has a turn that makes this call. */
  ghost predicate Made(h: seq<Message>, call: ToolCall) {
    exists i :: 0 <= i < |h| && h[i].role == Assistant && call in h[i].calls
  }

  /** A missing or empty name reads as `tool`. */
  function ToolName(m: Message): string {
    if m.name.Some? && m.name.value != "" then m.name.value else "tool"
  }

  /** The text ends with what it quotes, behind a line that names the tool. */
  predicate Quotes(text: string, tool: string, quoted: string) {
    var n := |text| - |quoted|;
    n >= 0 && text[n..] == quoted && text[..n] == "[Historical tool result for " + tool + "]:\n"
  }

  predicate IsNoteOn(m: Message, orphan: Message) {
    && m.role == User && m.calls == [] && m.callId == None && m.name == None
    && m.displayName == Some("Historical Tool Result") && m.collapsed
    && Quotes(m.content, ToolName(orphan), orphan.content)
  }

  predicate StandsInFor(m: Message, call: ToolCall) {
    && m.role == Tool && m.calls == [] && m.callId == Some(call.id) && m.name == Some(call.name)
    && m.content == INTERRUPTED && m.displayName == None
  }

  ghost predicate Sound(h: seq<Message>, p: Piece) {
    match p
    case Kept(_) => true
    case Converted(msg, orphan) => orphan.role == Tool && IsNoteOn(msg, orphan)
    case Added(msg, call) => Made(h, call) && StandsInFor(msg, call)
  }

  ghost predicate AllSound(h: seq<Message>, ps: seq<Piece>) {
    forall i :: 0 <= i < |ps| ==> Sound(h, ps[i])
  }

  ghost function Shown(ps: seq<Piece>): seq<Message> {
    if ps == [] then [] else [ps[0].msg] + Shown(ps[1..])
  }

  /** The input messages behind the pieces; stand-ins have none. */
  ghost function Behind(ps: seq<Piece>): seq<Message> {
    if ps == [] then [] else BehindOne(ps[0]) + Behind(ps[1..])
  }

  ghost function BehindOne(p: Piece): seq<Message> {
    match p case Kept(m) => [m] case Converted(_, orphan) => [orphan] case Added(_, _) => []
  }

  lemma {:induction false} PiecesConcat(p: seq<Piece>, q: seq<Piece>)
    ensures Shown(p + q) == Shown(p) + Shown(q) && Behind(p + q) == Behind(p) + Behind(q)
  {
    if p == [] {
      assert p + q == q;
    } else {
      assert (p + q)[1..] == p[1..] + q;
      PiecesConcat(p[1..], q);
      Regroup([p[0].msg], Shown(p[1..]), Shown(q));
      Regroup(BehindOne(p[0]), Behind(p[1..]), Behind(q));
    }
  }

  /** Turns of the rest are turns of the whole. */
  lemma {:induction false} SoundInWhole(h: seq<Message>, d: nat, ps: seq<Piece>)
    requires d <= |h| && AllSound(h[d..], ps)
    ensures AllSound(h, ps)
  {
    forall i | 0 <= i < |ps|
      ensures Sound(h, ps[i])
    {
      assert Sound(h[d..], ps[i]);
      if ps[i].Added? {
        var a :| 0 <= a < |h[d..]| && h[d..][a].role == Assistant && ps[i].call in h[d..][a].calls;
        assert h[d + a] == h[d..][a];
      }
    }
  }

  lemma {:induction false} KeepAll(h: seq<Message>, ms: seq<Message>) returns (ps: seq<Piece>)
    ensures Shown(ps) == ms && Behind(ps) == ms && AllSound(h, ps)
  {
    if ms == [] {
      ps := [];
    } else {
      var rest := KeepAll(h, ms[1..]);
      ps := [Kept(ms[0])] + rest;
      assert ps[1..] == rest && ms == [ms[0]] + ms[1..];
    }
  }

  lemma {:induction false} AddAll(h: seq<Message>, calls: seq<ToolCall>, block: seq<Message>) returns (ps: seq<Piece>)
    requires forall c :: c in calls ==> Made(h, c)
    ensures Shown(ps) == StandIns(calls, block) && Behind(ps) == [] && AllSound(h, ps)
  {
    if calls == [] {
      ps := [];
    } else {
      ps := AddAll(h, calls[1..], block);
      if !Answers(block, calls[0].id) {
        var rest := ps;
        ps := [Added(ToolMessage(calls[0].id, calls[0].name, INTERRUPTED), calls[0])] + rest;
        assert ps[1..] == rest;
      }
    }
  }

  /** Taking the stand-ins out of the repair gives the history back, message by message and in order. Only
      orphaned tool results have changed, each into a note that ends with its own text and names its tool; a
      stand-in has the id and the name of a call that the history makes. */
  lemma {:induction false} NothingIsLost(scope: set<string>, h: seq<Message>) returns (ps: seq<Piece>)
    ensures Shown(ps) == Repair(scope, h) && Behind(ps) == h && AllSound(h, ps)
    decreases |h|
  {
    if h == [] {
      ps := [];
    } else {
      RoundRest(scope, h);
      var first := PiecesOfRound(scope, h);
      var more := NothingIsLost(ScopeAfterRound(scope, h), Round(scope, h).1);
      SoundInWhole(h, RoundLength(h), more);
      ps := JoinPieces(scope, h, first, more);
    }
  }

  lemma {:induction false} JoinPieces(scope: set<string>, h: seq<Message>, first: seq<Piece>, more: seq<Piece>)
    returns (ps: seq<Piece>)
    requires h != [] && AllSound(h, first) && AllSound(h, more)
    requires Shown(first) == Round(scope, h).0 && Behind(first) == h[..RoundLength(h)]
    requires var rest := Round(scope, h).1;
             Shown(more) == Repair(ScopeAfterRound(scope, h), rest) && Behind(more) == rest
    ensures Shown(ps) == Repair(scope, h) && Behind(ps) == h && AllSound(h, ps)
  {
    ps := first + more;
    PiecesConcat(first, more);
    RoundRest(scope, h);
    assert h == h[..RoundLength(h)] + h[RoundLength(h)..];
  }

  lemma {:induction false} PiecesOfRound(scope: set<string>, h: seq<Message>) returns (ps: seq<Piece>)
    requires h != []
    ensures Shown(ps) == Round(scope, h).0 && Behind(ps) == h[..RoundLength(h)] && AllSound(h, ps)
  {
    var m := h[0];
    if MakesCalls(m) {
      var block := h[1..RoundLength(h)];
      assert h[..RoundLength(h)] == [m] + block;
      var kept := KeepAll(h, [m] + block);
      assert forall c :: c in m.calls ==> Made(h, c);
      var added := AddAll(h, m.calls, block);
      PiecesConcat(kept, added);
      ps := kept + added;
    } else {
      ps := OnePiece(scope, h, m);
      assert h[..1] == [m];
    }
  }

  lemma {:induction false} OnePiece(scope: set<string>, h: seq<Message>, m: Message) returns (ps: seq<Piece>)
    ensures Shown(ps) == [if m.role == Tool && !InScope(scope, m.callId) then OrphanNote(m) else m]
    ensures Behind(ps) == [m] && AllSound(h, ps)
  {
    if m.role == Tool && !InScope(scope, m.callId) {
      NoteQuotes(m);
      ps := [Converted(OrphanNote(m), m)];
    } else {
      ps := [Kept(m)];
    }
  }

  lemma {:induction false} NoteQuotes(m: Message)
    ensures IsNoteOn(OrphanNote(m), m)
  {
    var open := "[Historical tool result for " + ToolName(m) + "]:\n";
    assert OrphanNote(m).content == open + m.content;
  }
}
