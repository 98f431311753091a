/** Conversation transcripts as an API accepts them: every tool call answered right after the turn
    that made it, and no answer without a call. */
module Transcript {
  import opened Text

  datatype Role = System | User | Assistant | Tool

  datatype ToolCall = ToolCall(id: string, name: string, arguments: string)

  /** `calls` is empty for a turn without tool calls; text lengths are in the text's own units. */
  datatype Message = Message(
    role: Role,
    content: string,
    calls: seq<ToolCall>,
    callId: Option<string>,
    name: Option<string>,
    displayName: Option<string>,
    collapsed: bool)

  const INTERRUPTED := "{\"error\":\"tool execution was interrupted or omitted\"}"

  function ToolMessage(id: string, name: string, content: string): Message {
    Message(Tool, content, [], Some(id), Some(name), None, false)
  }

  function UserNote(displayName: string, content: string): Message {
    Message(User, content, [], None, None, Some(displayName), true)
  }

  function AssistantMessage(content: string, calls: seq<ToolCall>): Message {
    Message(Assistant, content, calls, None, None, None, false)
  }

  const CONTEXT_OPEN := "[System context for this turn — not something the user said]\n\n"

  /** What a turn is told beside the conversation, if there is anything to tell. */
  function ContextNote(text: string): seq<Message> {
    if text == "" then [] else [UserNote("Context", CONTEXT_OPEN + text)]
  }

  /** What an orphaned tool result becomes. */
  function OrphanNote(m: Message): Message {
    var name := match m.name case None => "tool" case Some(n) => if n == "" then "tool" else n;
    UserNote("Historical Tool Result", "[Historical tool result for " + name + "]:\n" + m.content)
  }

  predicate MakesCalls(m: Message) {
    m.role == Assistant && m.calls != []
  }

  predicate HasCall(calls: seq<ToolCall>, id: string) {
    exists i :: 0 <= i < |calls| && calls[i].id == id
  }

  /** How many tool messages a history starts with. */
  function LeadingTools(h: seq<Message>): (n: nat)
    ensures n <= |h|
    ensures forall i :: 0 <= i < n ==> h[i].role == Tool
    ensures n < |h| ==> h[n].role != Tool
  {
    if h != [] && h[0].role == Tool then 1 + LeadingTools(h[1..]) else 0
  }

  /** A non-empty id that one of the messages answers. */
  predicate Answers(block: seq<Message>, id: string) {
    id != "" && exists i :: 0 <= i < |block| && block[i].callId == Some(id)
  }

  /** Stand-in answers for the calls nobody answered. */
  function StandIns(calls: seq<ToolCall>, block: seq<Message>): seq<Message> {
    if calls == [] then []
    else
      (if Answers(block, calls[0].id) then [] else [ToolMessage(calls[0].id, calls[0].name, INTERRUPTED)]) +
      StandIns(calls[1..], block)
  }

  // ----- the repair, as a function of the history

  /** Ids of the calls since the last user or system message. */
  function ScopeAfter(scope: set<string>, m: Message): set<string> {
    match m.role
    case System => {}
    case User => {}
    case Assistant => scope + set c | c in m.calls :: c.id
    case Tool => scope
  }

  /** What the next round of the repair appends, and where it goes on. */
  function Round(scope: set<string>, h: seq<Message>): (r: (seq<Message>, seq<Message>))
    requires h != []
    ensures |r.1| < |h|
  {
    var m := h[0];
    if m.role == Tool then ([if InScope(scope, m.callId) then m else OrphanNote(m)], h[1..])
    else if MakesCalls(m) then
      var k := LeadingTools(h[1..]);
      (Turn(m, h[1..k + 1]), h[k + 1..])
    else ([m], h[1..])
  }

  function ScopeAfterRound(scope: set<string>, h: seq<Message>): set<string>
    requires h != []
  {
    if h[0].role == Tool && !InScope(scope, h[0].callId) then {} else ScopeAfter(scope, h[0])
  }

  function Repair(scope: set<string>, h: seq<Message>): seq<Message>
    decreases |h|
  {
    if h == [] then []
    else
      var (next, rest) := Round(scope, h);
      next + Repair(ScopeAfterRound(scope, h), rest)
  }

  function Turn(m: Message, block: seq<Message>): seq<Message> {
    [m] + block + StandIns(m.calls, block)
  }

  predicate InScope(scope: set<string>, id: Option<string>) {
    id.Some? && id.value in scope
  }

  function Sanitized(h: seq<Message>): seq<Message> {
    Repair({}, h)
  }

  function ScopeOf(out: seq<Message>): set<string> {
    if out == [] then {} else ScopeAfter(ScopeOf(out[..|out| - 1]), out[|out| - 1])
  }

  lemma {:induction false} ScopeOfTools(out: seq<Message>, more: seq<Message>)
    requires forall i :: 0 <= i < |more| ==> more[i].role == Tool
    ensures ScopeOf(out + more) == ScopeOf(out)
    decreases |more|
  {
    if more == [] {
      assert out + more == out;
    } else {
      assert (out + more)[..|out + more| - 1] == out + more[..|more| - 1];
      ScopeOfTools(out, more[..|more| - 1]);
    }
  }

  lemma {:induction false} StandInsAnswer(calls: seq<ToolCall>, block: seq<Message>)
    ensures forall i :: 0 <= i < |StandIns(calls, block)| ==> StandIns(calls, block)[i].role == Tool
    ensures forall c :: 0 <= c < |calls| && !Answers(block, calls[c].id) ==>
              exists i :: 0 <= i < |StandIns(calls, block)| && StandIns(calls, block)[i].callId == Some(calls[c].id)
  {
    if calls != [] {
      StandInsAnswer(calls[1..], block);
      var rest := StandIns(calls[1..], block);
      forall c | 0 <= c < |calls| && !Answers(block, calls[c].id)
        ensures exists i :: 0 <= i < |StandIns(calls, block)| && StandIns(calls, block)[i].callId == Some(calls[c].id)
      {
        if c == 0 {
          assert StandIns(calls, block)[0].callId == Some(calls[0].id);
        } else {
          assert calls[1..][c - 1] == calls[c];
          var i :| 0 <= i < |rest| && rest[i].callId == Some(calls[c].id);
          assert StandIns(calls, block)[|StandIns(calls, block)| - |rest| + i] == rest[i];
        }
      }
    }
  }

  // ----- the repair loop

  /** Look back for the call a tool message answers, not past a user or system message. */
  method FindCall(out: seq<Message>, id: Option<string>) returns (matched: bool)
    ensures matched <==> InScope(ScopeOf(out), id)
  {
    matched := false;
    var j := |out| - 1;
    assert out[..|out|] == out;
    while j >= 0
      invariant -1 <= j < |out|
      invariant InScope(ScopeOf(out), id) <==> InScope(ScopeOf(out[..j + 1]), id)
      decreases j
    {
      var prev := out[j];
      assert out[..j + 1][..j] == out[..j];
      if prev.role == Assistant && id.Some? && HasCall(prev.calls, id.value) {
        return true;
      }
      if prev.role == User || prev.role == System {
        return false;
      }
      j := j - 1;
    }
  }

  method Sanitize(history: seq<Message>) returns (out: seq<Message>)
    ensures out == Sanitized(history)
  {
    if |history| == 0 {
      return [];
    }
    out := [];
    var i := 0;
    while i < |history|
      invariant 0 <= i <= |history|
      invariant out + Repair(ScopeOf(out), history[i..]) == Sanitized(history)
    {
      var m := history[i];
      RepairStep(out, history[i..]);
      assert history[i..][1..] == history[i + 1..];
      if m.role == Tool {
        var matched := FindCall(out, m.callId);
        out := out + [if matched then m else OrphanNote(m)];
        i := i + 1;
        continue;
      }
      if MakesCalls(m) {
        var turn, k := CopyTurn(history, i);
        assert history[i..][k - i..] == history[k..];
        out := out + turn;
        i := k;
        continue;
      }
      out := out + [m];
      i := i + 1;
    }
    assert out + [] == out;
  }

  /** A turn with calls: the turn, the tool messages right after it, and stand-ins for the calls
      these leave open. */
  method CopyTurn(history: seq<Message>, i: nat) returns (out: seq<Message>, k: nat)
    requires i < |history|
    ensures i < k <= |history| && k - i - 1 == LeadingTools(history[i..][1..])
    ensures out == Turn(history[i], history[i..][1..k - i])
  {
    var m := history[i];
    var foundIds;
    k, foundIds := CollectAnswers(history, i);
    ghost var block := history[i..][1..k - i];
    assert block == history[i + 1..k];
    out := [m];
    for j := i + 1 to k
      invariant out == [m] + history[i + 1..j]
    {
      out := out + [history[j]];
    }
    var added := OpenCalls(m.calls, foundIds, block);
    out := out + added;
  }

  method CollectAnswers(history: seq<Message>, i: nat) returns (k: nat, foundIds: set<string>)
    requires i < |history|
    ensures i < k <= |history| && k - i - 1 == LeadingTools(history[i..][1..])
    ensures forall id :: id in foundIds <==> Answers(history[i + 1..k], id)
  {
    foundIds := {};
    k := i + 1;
    while k < |history| && history[k].role == Tool
      invariant i < k <= |history|
      invariant forall j :: i < j < k ==> history[j].role == Tool
      invariant forall id :: id in foundIds <==> Answers(history[i + 1..k], id)
    {
      assert history[i + 1..k + 1] == history[i + 1..k] + [history[k]];
      AnswersMore(history[i + 1..k], history[k]);
      if history[k].callId.Some? && history[k].callId.value != "" {
        foundIds := foundIds + {history[k].callId.value};
      }
      k := k + 1;
    }
    LeadingToolsIs(history[i..][1..], k - i - 1);
  }

  method OpenCalls(calls: seq<ToolCall>, foundIds: set<string>, ghost block: seq<Message>) returns (added: seq<Message>)
    requires forall id :: id in foundIds <==> Answers(block, id)
    ensures added == StandIns(calls, block)
  {
    added := [];
    for c := 0 to |calls|
      invariant added + StandIns(calls[c..], block) == StandIns(calls, block)
    {
      StandInsStep(added, calls, c, block);
      if calls[c].id !in foundIds {
        added := added + [ToolMessage(calls[c].id, calls[c].name, INTERRUPTED)];
      }
    }
  }

  lemma {:induction false} StandInsStep(added: seq<Message>, calls: seq<ToolCall>, c: nat, block: seq<Message>)
    requires c < |calls|
    ensures var one := if Answers(block, calls[c].id) then []
            else [ToolMessage(calls[c].id, calls[c].name, INTERRUPTED)];
            added + StandIns(calls[c..], block) == added + one + StandIns(calls[c + 1..], block)
  {
    assert calls[c..][1..] == calls[c + 1..];
    var one := if Answers(block, calls[c].id) then [] else [ToolMessage(calls[c].id, calls[c].name, INTERRUPTED)];
    Regroup(added, one, StandIns(calls[c + 1..], block));
  }

  lemma {:induction false} AnswersMore(block: seq<Message>, m: Message)
    ensures forall id :: Answers(block + [m], id) <==> Answers(block, id) || (id != "" && m.callId == Some(id))
  {
    var more := block + [m];
    assert more[|block|] == m;
    forall id | Answers(block, id)
      ensures Answers(more, id)
    {
      var i :| 0 <= i < |block| && block[i].callId == Some(id);
      assert more[i].callId == Some(id);
    }
  }

  lemma {:induction false} LeadingToolsIs(h: seq<Message>, n: nat)
    requires n <= |h| && (forall i :: 0 <= i < n ==> h[i].role == Tool) && (n < |h| ==> h[n].role != Tool)
    ensures LeadingTools(h) == n
  {
    var k := LeadingTools(h);
    assert k < |h| ==> h[k].role != Tool;
  }

  /** One round follows the recursion, with the scope read off the output. */
  lemma {:induction false} RepairStep(out: seq<Message>, h: seq<Message>)
    requires h != []
    ensures var (next, rest) := Round(ScopeOf(out), h);
            out + Repair(ScopeOf(out), h) == (out + next) + Repair(ScopeOf(out + next), rest)
  {
    var (next, rest) := Round(ScopeOf(out), h);
    RoundScope(out, h);
    Regroup(out, next, Repair(ScopeOf(out + next), rest));
  }

  lemma {:induction false} RoundScope(out: seq<Message>, h: seq<Message>)
    requires h != []
    ensures ScopeOf(out + Round(ScopeOf(out), h).0) == ScopeAfterRound(ScopeOf(out), h)
  {
    var m := h[0];
    if m.role == Tool {
      ScopeOfMore(out, if InScope(ScopeOf(out), m.callId) then m else OrphanNote(m));
    } else if MakesCalls(m) {
      TurnScope(out, m, h[1..LeadingTools(h[1..]) + 1]);
    } else {
      ScopeOfMore(out, m);
    }
  }

  lemma {:induction false} TurnScope(out: seq<Message>, m: Message, block: seq<Message>)
    requires forall i :: 0 <= i < |block| ==> block[i].role == Tool
    ensures ScopeOf(out + Turn(m, block)) == ScopeAfter(ScopeOf(out), m)
  {
    StandInsAnswer(m.calls, block);
    ScopeOfMore(out, m);
    var more := block + StandIns(m.calls, block);
    ScopeOfTools(out + [m], more);
    Regroup(out, [m], more);
    Regroup([m], block, StandIns(m.calls, block));
  }

  lemma {:induction false} ScopeOfMore(out: seq<Message>, m: Message)
    ensures ScopeOf(out + [m]) == ScopeAfter(ScopeOf(out), m)
  {
    assert (out + [m])[..|out|] == out;
  }

  // ----- what an API accepts

  predicate Answered(strict: bool, block: seq<Message>, id: string) {
    (strict ==> id != "") && exists i :: 0 <= i < |block| && block[i].callId == Some(id)
  }

  predicate AllAnswered(strict: bool, block: seq<Message>, calls: seq<ToolCall>) {
    forall c :: 0 <= c < |calls| ==> Answered(strict, block, calls[c].id)
  }

  /** A turn with calls goes with the tool messages right after it. */
  function RoundLength(h: seq<Message>): (d: nat)
    requires h != []
    ensures 1 <= d <= |h|
  {
    if MakesCalls(h[0]) then LeadingTools(h[1..]) + 1 else 1
  }

  predicate FirstAccepted(strict: bool, scope: set<string>, h: seq<Message>)
    requires h != []
  {
    if h[0].role == Tool then InScope(scope, h[0].callId)
    else MakesCalls(h[0]) ==> AllAnswered(strict, h[1..RoundLength(h)], h[0].calls)
  }

  /** Every turn's calls are answered in the tool messages right after it, and a tool message
      anywhere else answers a call made since the last user or system message. `strict` also
      asks for non-empty call ids. */
  predicate Accepted(strict: bool, scope: set<string>, h: seq<Message>)
    decreases |h|
  {
    h != [] ==> FirstAccepted(strict, scope, h) && Accepted(strict, ScopeAfter(scope, h[0]), h[RoundLength(h)..])
  }

  predicate NamedCalls(h: seq<Message>) {
    forall i :: 0 <= i < |h| && MakesCalls(h[i]) ==> Named(h[i].calls)
  }

  predicate Named(calls: seq<ToolCall>) {
    forall c :: 0 <= c < |calls| ==> calls[c].id != ""
  }

  lemma {:induction false} TurnAnswersAll(strict: bool, m: Message, block: seq<Message>)
    requires strict ==> Named(m.calls)
    ensures AllAnswered(strict, block + StandIns(m.calls, block), m.calls)
  {
    var added := StandIns(m.calls, block);
    StandInsAnswer(m.calls, block);
    forall c | 0 <= c < |m.calls|
      ensures Answered(strict, block + added, m.calls[c].id)
    {
      var id := m.calls[c].id;
      if Answers(block, id) {
        var i :| 0 <= i < |block| && block[i].callId == Some(id);
        assert (block + added)[i].callId == Some(id);
      } else {
        var i :| 0 <= i < |added| && added[i].callId == Some(id);
        assert (block + added)[|block| + i].callId == Some(id);
      }
    }
  }

  lemma {:induction false} RepairStart(scope: set<string>, h: seq<Message>)
    requires h == [] || h[0].role != Tool
    ensures Repair(scope, h) == [] || Repair(scope, h)[0].role != Tool
  {
  }

  /** Whatever the history, its repair is accepted; strictly so when all calls are named. */
  lemma {:induction false} RepairIsAccepted(strict: bool, scope: set<string>, h: seq<Message>)
    requires strict ==> NamedCalls(h)
    ensures Accepted(strict, scope, Repair(scope, h))
    decreases |h|
  {
    if h != [] {
      var (next, rest) := Round(scope, h);
      var scope' := ScopeAfterRound(scope, h);
      assert rest == h[|h| - |rest|..];
      RepairIsAccepted(strict, scope', rest);
      var r := Repair(scope', rest);
      if MakesCalls(h[0]) {
        var block := h[1..RoundLength(h)];
        RepairStart(scope', rest);
        TurnAnswersAll(strict, h[0], block);
        AcceptedTurn(strict, scope, h[0], block, r);
      } else {
        assert ([next[0]] + r)[1..] == r;
      }
    }
  }

  lemma {:induction false} AcceptedTurn(strict: bool, scope: set<string>, m: Message, block: seq<Message>,
      r: seq<Message>)
    requires MakesCalls(m) && (forall i :: 0 <= i < |block| ==> block[i].role == Tool)
    requires AllAnswered(strict, block + StandIns(m.calls, block), m.calls)
    requires r == [] || r[0].role != Tool
    requires Accepted(strict, ScopeAfter(scope, m), r)
    ensures Accepted(strict, scope, Turn(m, block) + r)
  {
    var more := block + StandIns(m.calls, block);
    StandInsAnswer(m.calls, block);
    var out := [m] + (more + r);
    Regroup([m], block, StandIns(m.calls, block));
    Regroup([m], more, r);
    assert out[1..] == more + r;
    LeadingToolsIs(more + r, |more|);
    assert out[1..|more| + 1] == (more + r)[..|more|] == more;
    assert out[|more| + 1..] == (more + r)[|more|..] == r;
  }

  /** Nothing is left to repair exactly in the accepted histories. */
  lemma {:induction false} UnchangedIffAccepted(scope: set<string>, h: seq<Message>)
    ensures Repair(scope, h) == h <==> Accepted(true, scope, h)
    decreases |h|
  {
    if h != [] {
      var (next, rest) := Round(scope, h);
      var scope' := ScopeAfterRound(scope, h);
      UnchangedIffAccepted(scope', rest);
      var r := Repair(scope', rest);
      UnchangedRound(scope, h, r);
    }
  }

  lemma {:induction false} UnchangedRound(scope: set<string>, h: seq<Message>, r: seq<Message>)
    requires h != []
    ensures var (next, rest) := Round(scope, h); next + r == h <==> FirstAccepted(true, scope, h) && r == rest
  {
    if h[0].role != Tool && MakesCalls(h[0]) {
      UnchangedTurn(h, r);
    } else {
      ConsEquals(Round(scope, h).0[0], r, h);
    }
  }

  lemma {:induction false} ConsEquals<T>(x: T, r: seq<T>, h: seq<T>)
    requires h != []
    ensures [x] + r == h <==> x == h[0] && r == h[1..]
  {
    assert ([x] + r)[1..] == r;
    assert h == [h[0]] + h[1..];
  }

  lemma {:induction false} UnchangedTurn(h: seq<Message>, r: seq<Message>)
    requires h != [] && MakesCalls(h[0])
    ensures var k := LeadingTools(h[1..]);
            var block := h[1..k + 1];
            Turn(h[0], block) + r == h <==> AllAnswered(true, block, h[0].calls) && r == h[k + 1..]
  {
    var k := LeadingTools(h[1..]);
    var block, added := h[1..k + 1], StandIns(h[0].calls, h[1..k + 1]);
    NoStandInsIff(h[0].calls, block);
    StandInsAnswer(h[0].calls, block);
    Regroup([h[0]] + block, added, r);
    assert [h[0]] + block == h[..k + 1];
    PrefixEquals(h, k + 1, added + r);
    assert k + 1 < |h| ==> h[k + 1] == h[1..][k];
    if added == [] {
      assert added + r == r;
    } else {
      assert (added + r)[0].role == Tool;
    }
  }

  lemma {:induction false} PrefixEquals<T>(h: seq<T>, k: nat, r: seq<T>)
    requires k <= |h|
    ensures h[..k] + r == h <==> r == h[k..]
  {
    assert (h[..k] + r)[k..] == r;
    assert h == h[..k] + h[k..];
  }

  lemma {:induction false} NoStandInsIff(calls: seq<ToolCall>, block: seq<Message>)
    ensures StandIns(calls, block) == [] <==> AllAnswered(true, block, calls)
  {
    if calls != [] {
      NoStandInsIff(calls[1..], block);
      assert Answers(block, calls[0].id) <==> Answered(true, block, calls[0].id);
      assert forall c :: 1 <= c < |calls| ==> calls[c] == calls[1..][c - 1];
      assert forall c :: 0 <= c < |calls| - 1 ==> calls[1..][c] == calls[c + 1];
    }
  }

  lemma {:induction false} AcceptedIsNamed(scope: set<string>, h: seq<Message>)
    requires Accepted(true, scope, h)
    ensures NamedCalls(h)
    decreases |h|
  {
    if h != [] {
      var d := RoundLength(h);
      AcceptedIsNamed(ScopeAfter(scope, h[0]), h[d..]);
      FirstIsNamed(scope, h);
      forall i | 0 <= i < |h| && MakesCalls(h[i])
        ensures Named(h[i].calls)
      {
        assert h[i] == if i < d then h[..d][i] else h[d..][i - d];
      }
    }
  }

  lemma {:induction false} FirstIsNamed(scope: set<string>, h: seq<Message>)
    requires h != [] && FirstAccepted(true, scope, h)
    ensures NamedCalls(h[..RoundLength(h)])
  {
    var d := RoundLength(h);
    if MakesCalls(h[0]) {
      forall c | 0 <= c < |h[0].calls|
        ensures h[0].calls[c].id != ""
      {
        assert Answered(true, h[1..d], h[0].calls[c].id);
      }
      assert forall i :: 1 <= i < d ==> h[i] == h[1..][i - 1];
    }
  }

  /** Turns with calls pass through the repair. */
  lemma {:induction false} CallsPassThrough(scope: set<string>, h: seq<Message>, i: nat)
    requires i < |h| && MakesCalls(h[i])
    ensures h[i] in Repair(scope, h)
    decreases |h|
  {
    var (next, rest) := Round(scope, h);
    if i == 0 {
      assert next[0] == h[0];
    } else {
      var d := |h| - |rest|;
      assert rest == h[d..];
      forall j | 1 <= j < d ensures h[j].role == Tool { assert h[j] == h[1..][j - 1]; }
      CallsPassThrough(ScopeAfterRound(scope, h), rest, i - d);
    }
  }

  /** A second repair changes nothing exactly when no turn makes a call with an empty id. */
  lemma {:induction false} IdempotentIffNamed(h: seq<Message>)
    ensures Sanitized(Sanitized(h)) == Sanitized(h) <==> NamedCalls(h)
  {
    UnchangedIffAccepted({}, Sanitized(h));
    if NamedCalls(h) {
      RepairIsAccepted(true, {}, h);
    } else {
      var i :| 0 <= i < |h| && MakesCalls(h[i]) && !Named(h[i].calls);
      CallsPassThrough({}, h, i);
      var j :| 0 <= j < |Sanitized(h)| && Sanitized(h)[j] == h[i];
      if Accepted(true, {}, Sanitized(h)) {
        AcceptedIsNamed({}, Sanitized(h));
      }
    }
  }

  lemma {:induction false} RoundRest(scope: set<string>, h: seq<Message>)
    requires h != []
    ensures Round(scope, h).1 == h[RoundLength(h)..]
  {
  }

  // ----- reading acceptance position by position

  /** The assistant turn that a tool message at `i` belongs to. */
  ghost predicate Serves(h: seq<Message>, a: nat, i: nat)
    requires i < |h|
  {
    && a < i && MakesCalls(h[a])
    && (forall j :: a < j < i ==> h[j].role != User && h[j].role != System)
    && ((forall j :: a < j < i ==> h[j].role == Tool) || (h[i].callId.Some? && HasCall(h[a].calls, h[i].callId.value)))
  }

  ghost predicate AnsweredAt(h: seq<Message>, i: nat)
    requires i < |h|
  {
    AllAnswered(false, h[i + 1..][..LeadingTools(h[i + 1..])], h[i].calls)
  }

  /** Ids in scope come from turns of `before` with no user or system message after them. */
  ghost predicate ScopeFrom(scope: set<string>, before: seq<Message>) {
    forall id :: id in scope ==> exists a: nat :: Opens(before, a, id)
  }

  ghost predicate Opens(before: seq<Message>, a: nat, id: string) {
    && a < |before| && MakesCalls(before[a]) && HasCall(before[a].calls, id)
    && forall j :: a < j < |before| ==> before[j].role != User && before[j].role != System
  }

  lemma {:induction false} ScopeFromMore(scope: set<string>, before: seq<Message>, m: Message)
    requires ScopeFrom(scope, before)
    ensures ScopeFrom(ScopeAfter(scope, m), before + [m])
  {
    forall id | id in ScopeAfter(scope, m)
      ensures exists a: nat :: Opens(before + [m], a, id)
    {
      if id in scope {
        var a: nat :| Opens(before, a, id);
        assert Opens(before + [m], a, id);
      } else {
        assert Opens(before + [m], |before|, id);
      }
    }
  }

  ghost predicate Served(h: seq<Message>, i: nat)
    requires i < |h|
  {
    exists a: nat :: Serves(h, a, i)
  }

  ghost predicate InOrder(before: seq<Message>, h: seq<Message>, i: nat)
    requires i < |h|
  {
    && (MakesCalls(h[i]) ==> AnsweredAt(h, i))
    && (h[i].role == Tool ==> Served(before + h, |before| + i))
  }

  /** Acceptance, said of every position: the calls of each turn are answered in the block right
      after it, and each tool message follows a turn with calls with no user or system message in
      between, in that turn's block or naming one of its calls. */
  lemma {:induction false} AcceptedMeans(scope: set<string>, before: seq<Message>, h: seq<Message>, i: nat)
    requires Accepted(false, scope, h) && ScopeFrom(scope, before) && i < |h|
    ensures InOrder(before, h, i)
    decreases |h|
  {
    var d := RoundLength(h);
    if i >= d {
      AcceptedRest(scope, before, h);
      AcceptedMeans(ScopeAfter(scope, h[0]), before + h[..d], h[d..], i - d);
      ShiftedPosition(before, h, d, i);
    } else {
      FirstRound(scope, before, h, i);
    }
  }

  lemma {:induction false} FirstRound(scope: set<string>, before: seq<Message>, h: seq<Message>, i: nat)
    requires h != [] && Accepted(false, scope, h) && ScopeFrom(scope, before) && i < RoundLength(h)
    ensures InOrder(before, h, i)
  {
    if i > 0 {
      assert h[i] == h[1..][i - 1];
      ServedByBlock(before, h, i);
    } else if h[0].role == Tool {
      ServedByScope(scope, before, h);
    } else if MakesCalls(h[0]) {
      assert h[1..LeadingTools(h[1..]) + 1] == h[1..][..LeadingTools(h[1..])];
    }
  }

  lemma {:induction false} AcceptedRest(scope: set<string>, before: seq<Message>, h: seq<Message>)
    requires h != [] && Accepted(false, scope, h) && ScopeFrom(scope, before)
    ensures var d, scope' := RoundLength(h), ScopeAfter(scope, h[0]);
            Accepted(false, scope', h[d..]) && ScopeFrom(scope', before + h[..d])
  {
    var d := RoundLength(h);
    forall j | 1 <= j < d ensures h[j].role == Tool { assert h[j] == h[1..][j - 1]; }
    ScopeFromRound(scope, before, h, d);
  }

  /** A position of the rest, seen from the front. */
  lemma {:induction false} ShiftedPosition(before: seq<Message>, h: seq<Message>, d: nat, i: nat)
    requires d <= i < |h| && InOrder(before + h[..d], h[d..], i - d)
    ensures InOrder(before, h, i)
  {
    assert before + h[..d] + h[d..] == before + h;
    assert h[d..][i - d + 1..] == h[i + 1..];
  }

  lemma {:induction false} ServedByBlock(before: seq<Message>, h: seq<Message>, i: nat)
    requires 0 < i < |h| && MakesCalls(h[0]) && i <= LeadingTools(h[1..])
    ensures Served(before + h, |before| + i)
  {
    var all := before + h;
    forall j: nat | |before| < j <= |before| + i
      ensures all[j].role == Tool
    {
      assert all[j] == h[1..][j - |before| - 1];
    }
    assert Serves(all, |before|, |before| + i);
  }

  lemma {:induction false} ServedByScope(scope: set<string>, before: seq<Message>, h: seq<Message>)
    requires h != [] && InScope(scope, h[0].callId) && ScopeFrom(scope, before)
    ensures Served(before + h, |before|)
  {
    var a: nat :| Opens(before, a, h[0].callId.value);
    var all := before + h;
    assert all[a] == before[a] && all[|before|] == h[0];
    assert Serves(all, a, |before|);
  }

  lemma {:induction false} ScopeFromRound(scope: set<string>, before: seq<Message>, h: seq<Message>, d: nat)
    requires h != [] && ScopeFrom(scope, before) && 1 <= d <= |h|
    requires forall j :: 1 <= j < d ==> h[j].role == Tool
    ensures ScopeFrom(ScopeAfter(scope, h[0]), before + h[..d])
    decreases d
  {
    if d == 1 {
      assert h[..1] == [h[0]];
      ScopeFromMore(scope, before, h[0]);
    } else {
      ScopeFromRound(scope, before, h, d - 1);
      assert before + h[..d] == (before + h[..d - 1]) + [h[d - 1]];
      ScopeFromMore(ScopeAfter(scope, h[0]), before + h[..d - 1], h[d - 1]);
    }
  }

  /** What the loop's result looks like, for every input. */
  lemma {:induction false} SanitizedIsOrdered(h: seq<Message>, i: nat)
    requires i < |Sanitized(h)|
    ensures MakesCalls(Sanitized(h)[i]) ==> AnsweredAt(Sanitized(h), i)
    ensures Sanitized(h)[i].role == Tool ==> Served(Sanitized(h), i)
  {
    RepairIsAccepted(false, {}, h);
    AcceptedFromStart(Sanitized(h), i);
  }

  lemma {:induction false} AcceptedFromStart(h: seq<Message>, i: nat)
    requires Accepted(false, {}, h) && i < |h|
    ensures MakesCalls(h[i]) ==> AnsweredAt(h, i)
    ensures h[i].role == Tool ==> Served(h, i)
  {
    AcceptedMeans({}, [], h, i);
    assert [] + h == h;
  }

  // ----- acceptance of longer histories

  ghost function ScopeThrough(scope: set<string>, h: seq<Message>): set<string>
    decreases |h|
  {
    if h == [] then scope else ScopeThrough(ScopeAfter(scope, h[0]), h[1..])
  }

  lemma {:induction false} ScopeThroughTools(scope: set<string>, h: seq<Message>, k: nat)
    requires k <= |h| && forall i :: 0 <= i < k ==> h[i].role == Tool
    ensures ScopeThrough(scope, h) == ScopeThrough(scope, h[k..])
    decreases k
  {
    if k > 0 {
      ScopeThroughTools(scope, h[1..], k - 1);
      assert h[1..][k - 1..] == h[k..];
    }
  }

  /** What comes after a history cannot spoil it, unless it starts with a tool message. */
  lemma {:induction false} AcceptedConcat(strict: bool, scope: set<string>, h: seq<Message>, ext: seq<Message>)
    requires ext == [] || ext[0].role != Tool
    ensures Accepted(strict, scope, h + ext) <==>
            Accepted(strict, scope, h) && Accepted(strict, ScopeThrough(scope, h), ext)
    decreases |h|
  {
    if h == [] {
      assert h + ext == ext;
    } else {
      RoundConcat(strict, scope, h, ext);
      AcceptedConcat(strict, ScopeAfter(scope, h[0]), h[RoundLength(h)..], ext);
    }
  }

  lemma {:induction false} RoundConcat(strict: bool, scope: set<string>, h: seq<Message>, ext: seq<Message>)
    requires h != [] && (ext == [] || ext[0].role != Tool)
    ensures var d := RoundLength(h);
            && RoundLength(h + ext) == d && (h + ext)[d..] == h[d..] + ext
            && FirstAccepted(strict, scope, h + ext) == FirstAccepted(strict, scope, h)
            && ScopeThrough(scope, h) == ScopeThrough(ScopeAfter(scope, h[0]), h[d..])
  {
    assert (h + ext)[1..] == h[1..] + ext;
    if MakesCalls(h[0]) { TurnConcat(h, ext); }
    ScopeThroughRound(scope, h);
  }

  lemma {:induction false} TurnConcat(h: seq<Message>, ext: seq<Message>)
    requires h != [] && MakesCalls(h[0]) && (ext == [] || ext[0].role != Tool)
    ensures var d := RoundLength(h);
            RoundLength(h + ext) == d && (h + ext)[1..d] == h[1..d] && (h + ext)[d..] == h[d..] + ext
  {
    assert (h + ext)[1..] == h[1..] + ext;
    LeadingToolsIs(h[1..] + ext, RoundLength(h) - 1);
  }

  lemma {:induction false} ScopeThroughRound(scope: set<string>, h: seq<Message>)
    requires h != []
    ensures ScopeThrough(scope, h) == ScopeThrough(ScopeAfter(scope, h[0]), h[RoundLength(h)..])
  {
    if MakesCalls(h[0]) {
      var d := RoundLength(h);
      ScopeThroughTools(ScopeAfter(scope, h[0]), h[1..], d - 1);
      assert h[1..][d - 1..] == h[d..];
    }
  }
}
