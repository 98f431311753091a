/** Which tool messages of a repaired history match a call: the first guarantee that the repair is
    documented with, and exactly when it is met. */
module ToolMatching {
  import opened Text
  import opened Transcript

  predicate NamesCall(turn: Message, tool: Message) {
    tool.callId.Some? && HasCall(turn.calls, tool.callId.value)
  }

  // ----- a matching call anywhere since the last user or system message

  ghost predicate Matches(h: seq<Message>, a: nat, i: nat)
    requires i < |h|
  {
    && a < i && MakesCalls(h[a]) && NamesCall(h[a], h[i])
    && forall j :: a < j < i ==> h[j].role != User && h[j].role != System
  }

  ghost predicate MatchedAt(h: seq<Message>, i: nat)
    requires i < |h|
  {
    exists a: nat :: Matches(h, a, i)
  }

  /** Every tool message has a turn before it that makes the call it names. */
  ghost predicate AllMatched(h: seq<Message>) {
    forall i: nat :: i < |h| && h[i].role == Tool ==> MatchedAt(h, i)
  }

  predicate AllInScope(scope: set<string>, tools: seq<Message>) {
    forall i :: 0 <= i < |tools| ==> InScope(scope, tools[i].callId)
  }

  predicate Matched(scope: set<string>, h: seq<Message>)
    decreases |h|
  {
    h == [] || ((h[0].role == Tool ==> InScope(scope, h[0].callId)) && Matched(ScopeAfter(scope, h[0]), h[1..]))
  }

  /** The scope holds the ids of the calls open at the end of `before`, and no others. */
  ghost predicate ScopeIs(scope: set<string>, before: seq<Message>) {
    forall id :: id in scope <==> exists a: nat :: Opens(before, a, id)
  }

  lemma {:induction false} ScopeIsMore(scope: set<string>, before: seq<Message>, m: Message)
    requires ScopeIs(scope, before)
    ensures ScopeIs(ScopeAfter(scope, m), before + [m])
  {
    var more := before + [m];
    forall id ensures id in ScopeAfter(scope, m) <==> exists a: nat :: Opens(more, a, id) {
      if id in ScopeAfter(scope, m) {
        if id in scope {
          var a: nat :| Opens(before, a, id);
          assert Opens(more, a, id);
        } else {
          assert Opens(more, |before|, id);
        }
      }
      if a: nat :| Opens(more, a, id) {
        assert forall j :: 0 <= j < |before| ==> more[j] == before[j];
        assert more[|before|] == m;
        if a < |before| {
          assert Opens(before, a, id);
        }
      }
    }
  }

  lemma {:induction false} MatchedHere(scope: set<string>, before: seq<Message>, h: seq<Message>)
    requires ScopeIs(scope, before) && h != []
    ensures InScope(scope, h[0].callId) <==> MatchedAt(before + h, |before|)
  {
    var all := before + h;
    if InScope(scope, h[0].callId) {
      var a: nat :| Opens(before, a, h[0].callId.value);
      assert all[a] == before[a] && Matches(all, a, |before|);
    }
    if a: nat :| Matches(all, a, |before|) {
      forall j | a < j < |before|
        ensures before[j].role != User && before[j].role != System
      {
        assert all[j] == before[j];
      }
      assert Opens(before, a, h[0].callId.value);
    }
  }

  /** `Matched` says of every position what `AllMatched` does. */
  lemma {:induction false} MatchedMeans(scope: set<string>, before: seq<Message>, h: seq<Message>)
    requires ScopeIs(scope, before)
    ensures Matched(scope, h) <==>
            forall i: nat :: |before| <= i < |before + h| && (before + h)[i].role == Tool ==> MatchedAt(before + h, i)
    decreases |h|
  {
    if h != [] {
      var all := before + h;
      assert (before + [h[0]]) + h[1..] == all && all[|before|] == h[0];
      MatchedHere(scope, before, h);
      ScopeIsMore(scope, before, h[0]);
      MatchedMeans(ScopeAfter(scope, h[0]), before + [h[0]], h[1..]);
    }
  }

  /** In the input: every tool message right after a calling turn names a call that is open there.
      Orphans elsewhere become notes, and close what was open. */
  predicate BlocksMatched(scope: set<string>, h: seq<Message>)
    decreases |h|
  {
    if h == [] then true
    else if MakesCalls(h[0]) then
      var k := LeadingTools(h[1..]);
      AllInScope(ScopeAfter(scope, h[0]), h[1..k + 1]) && BlocksMatched(ScopeAfter(scope, h[0]), h[k + 1..])
    else BlocksMatched(ScopeAfterRound(scope, h), h[1..])
  }

  lemma {:induction false} MatchedTools(scope: set<string>, tools: seq<Message>, r: seq<Message>)
    requires forall i :: 0 <= i < |tools| ==> tools[i].role == Tool
    ensures Matched(scope, tools + r) <==> AllInScope(scope, tools) && Matched(scope, r)
  {
    if tools == [] {
      assert tools + r == r;
    } else {
      assert (tools + r)[1..] == tools[1..] + r;
      MatchedTools(scope, tools[1..], r);
      assert AllInScope(scope, tools) <==> InScope(scope, tools[0].callId) && AllInScope(scope, tools[1..]) by {
        assert tools == [tools[0]] + tools[1..];
      }
    }
  }

  lemma {:induction false} StandInsInScope(scope: set<string>, calls: seq<ToolCall>, block: seq<Message>)
    requires forall c :: 0 <= c < |calls| ==> calls[c].id in scope
    ensures AllInScope(scope, StandIns(calls, block))
  {
    if calls != [] { StandInsInScope(scope, calls[1..], block); }
  }

  lemma {:induction false} MatchedTurn(scope: set<string>, m: Message, block: seq<Message>, r: seq<Message>)
    requires MakesCalls(m) && forall i :: 0 <= i < |block| ==> block[i].role == Tool
    ensures Matched(scope, Turn(m, block) + r) <==>
            AllInScope(ScopeAfter(scope, m), block) && Matched(ScopeAfter(scope, m), r)
  {
    var scope', added := ScopeAfter(scope, m), StandIns(m.calls, block);
    StandInsAnswer(m.calls, block);
    StandInsInScope(scope', m.calls, block);
    MatchedTools(scope', added, r);
    MatchedTools(scope', block, added + r);
    var out := Turn(m, block) + r;
    assert out == [m] + (block + (added + r));
    assert out[1..] == block + (added + r);
  }

  lemma {:induction false} RepairMatches(scope: set<string>, h: seq<Message>)
    ensures Matched(scope, Repair(scope, h)) <==> BlocksMatched(scope, h)
    decreases |h|
  {
    if h != [] {
      var (next, rest) := Round(scope, h);
      var r := Repair(ScopeAfterRound(scope, h), rest);
      RepairMatches(ScopeAfterRound(scope, h), rest);
      if MakesCalls(h[0]) {
        MatchedTurn(scope, h[0], h[1..LeadingTools(h[1..]) + 1], r);
      } else {
        assert (next + r)[1..] == r;
      }
    }
  }

  /** Every tool message of the repaired history has a matching call before it exactly when, in the
      input, the ones right after a calling turn do. */
  lemma {:induction false} AllMatchedIff(h: seq<Message>)
    ensures AllMatched(Sanitized(h)) <==> BlocksMatched({}, h)
  {
    var out := Sanitized(h);
    assert [] + out == out;
    assert ScopeIs({}, []);
    MatchedMeans({}, [], out);
    RepairMatches({}, h);
  }

  // ----- a matching call in the turn whose block it stands in

  ghost predicate InBlock(h: seq<Message>, a: nat, i: nat) {
    a < i < |h| && MakesCalls(h[a]) && forall j :: a < j <= i ==> h[j].role == Tool
  }

  /** Every tool message directly after a calling turn names one of that turn's calls. */
  ghost predicate OwnBlocks(h: seq<Message>) {
    forall a: nat, i: nat :: InBlock(h, a, i) ==> NamesCall(h[a], h[i])
  }

  ghost predicate AllName(turn: Message, block: seq<Message>) {
    forall i :: 0 <= i < |block| ==> NamesCall(turn, block[i])
  }

  lemma {:induction false} OwnBlocksFirst(m: Message, r: seq<Message>)
    requires !MakesCalls(m)
    ensures OwnBlocks([m] + r) <==> OwnBlocks(r)
  {
    OwnBlocksShift([m], r);
    forall a: nat, i: nat | InBlock([m] + r, a, i) ensures a >= 1 {
    }
  }

  /** Blocks that start in `r` are the same with anything in front. */
  lemma {:induction false} OwnBlocksShift(p: seq<Message>, r: seq<Message>)
    ensures OwnBlocks(r) <==>
            forall a: nat, i: nat :: a >= |p| && InBlock(p + r, a, i) ==> NamesCall((p + r)[a], (p + r)[i])
  {
    var all := p + r;
    forall a: nat, i: nat ensures InBlock(r, a, i) <==> InBlock(all, a + |p|, i + |p|) {
      assert forall j :: 0 <= j < |r| ==> all[j + |p|] == r[j];
      assert forall j :: |p| <= j < |all| ==> r[j - |p|] == all[j];
    }
    if OwnBlocks(r) {
      forall a: nat, i: nat | a >= |p| && InBlock(all, a, i) ensures NamesCall(all[a], all[i]) {
        assert InBlock(r, a - |p|, i - |p|);
      }
    }
    if forall a: nat, i: nat :: a >= |p| && InBlock(all, a, i) ==> NamesCall(all[a], all[i]) {
      forall a: nat, i: nat | InBlock(r, a, i) ensures NamesCall(r[a], r[i]) {
        assert InBlock(all, a + |p|, i + |p|);
      }
    }
  }

  lemma {:induction false} OwnBlocksTurn(m: Message, block: seq<Message>, r: seq<Message>)
    requires MakesCalls(m) && (forall i :: 0 <= i < |block| ==> block[i].role == Tool)
    requires r == [] || r[0].role != Tool
    ensures OwnBlocks([m] + block + r) <==> AllName(m, block) && OwnBlocks(r)
  {
    var p := [m] + block;
    var all := p + r;
    OwnBlocksShift(p, r);
    forall i | 0 <= i < |block| ensures InBlock(all, 0, i + 1) && all[i + 1] == block[i] {
    }
    assert r != [] ==> all[|p|] == r[0];
    assert forall j :: 0 < j < |p| ==> all[j] == block[j - 1];
    forall a: nat, i: nat | a < |p| && InBlock(all, a, i) ensures a == 0 && i <= |block| {
    }
    if OwnBlocks(all) {
      forall i | 0 <= i < |block| ensures NamesCall(m, block[i]) { assert NamesCall(all[0], all[i + 1]); }
    }
    if AllName(m, block) && OwnBlocks(r) {
      forall a: nat, i: nat | InBlock(all, a, i) ensures NamesCall(all[a], all[i]) {
        if a < |p| { assert all[i] == block[i - 1]; }
      }
    }
  }

  lemma {:induction false} StandInsName(turn: Message, calls: seq<ToolCall>, block: seq<Message>)
    requires forall c :: 0 <= c < |calls| ==> HasCall(turn.calls, calls[c].id)
    ensures AllName(turn, StandIns(calls, block))
  {
    if calls != [] { StandInsName(turn, calls[1..], block); }
  }

  lemma {:induction false} RepairedTurn(m: Message, block: seq<Message>, r: seq<Message>)
    requires MakesCalls(m) && (forall i :: 0 <= i < |block| ==> block[i].role == Tool)
    requires r == [] || r[0].role != Tool
    ensures OwnBlocks(Turn(m, block) + r) <==> AllName(m, block) && OwnBlocks(r)
  {
    var added := StandIns(m.calls, block);
    StandInsAnswer(m.calls, block);
    StandInsName(m, m.calls, block);
    Regroup([m], block, added);
    OwnBlocksTurn(m, block + added, r);
    assert AllName(m, block + added) <==> AllName(m, block) by {
      assert forall i :: 0 <= i < |block| ==> (block + added)[i] == block[i];
    }
  }

  /** The block of the turn at the front, if it is a calling turn, names its calls. */
  ghost predicate FirstBlockNames(h: seq<Message>)
    requires h != []
  {
    MakesCalls(h[0]) ==> AllName(h[0], h[1..LeadingTools(h[1..]) + 1])
  }

  lemma {:induction false} InputRound(scope: set<string>, h: seq<Message>)
    requires h != []
    ensures OwnBlocks(h) <==> FirstBlockNames(h) && OwnBlocks(Round(scope, h).1)
  {
    var rest := Round(scope, h).1;
    if MakesCalls(h[0]) {
      var block := h[1..LeadingTools(h[1..]) + 1];
      assert h == [h[0]] + block + rest;
      OwnBlocksTurn(h[0], block, rest);
    } else {
      assert h == [h[0]] + rest;
      OwnBlocksFirst(h[0], rest);
    }
  }

  lemma {:induction false} OutputRound(scope: set<string>, h: seq<Message>, r: seq<Message>)
    requires h != [] && (MakesCalls(h[0]) ==> r == [] || r[0].role != Tool)
    ensures OwnBlocks(Round(scope, h).0 + r) <==> FirstBlockNames(h) && OwnBlocks(r)
  {
    if MakesCalls(h[0]) {
      RepairedTurn(h[0], h[1..LeadingTools(h[1..]) + 1], r);
    } else {
      OwnBlocksFirst(Round(scope, h).0[0], r);
    }
  }

  /** The repair neither makes nor removes a foreign id in a turn's block. */
  lemma {:induction false} OwnBlocksIff(scope: set<string>, h: seq<Message>)
    ensures OwnBlocks(Repair(scope, h)) <==> OwnBlocks(h)
    decreases |h|
  {
    if h != [] {
      var rest, scope' := Round(scope, h).1, ScopeAfterRound(scope, h);
      OwnBlocksIff(scope', rest);
      if MakesCalls(h[0]) { RepairStart(scope', rest); }
      InputRound(scope, h);
      OutputRound(scope, h, Repair(scope', rest));
    }
  }

  /** With blocks of their own all tool messages match a call afterwards. */
  lemma {:induction false} OwnBlocksMatch(h: seq<Message>)
    requires OwnBlocks(h)
    ensures AllMatched(Sanitized(h))
  {
    AllMatchedIff(h);
    OwnBlocksAreMatched({}, h);
  }

  lemma {:induction false} OwnBlocksAreMatched(scope: set<string>, h: seq<Message>)
    requires OwnBlocks(h)
    ensures BlocksMatched(scope, h)
    decreases |h|
  {
    if h != [] {
      InputRound(scope, h);
      OwnBlocksAreMatched(ScopeAfterRound(scope, h), Round(scope, h).1);
    }
  }

  /** A turn and right after it a result for a call that nobody made: the repair keeps it. */
  lemma {:induction false} AForeignResultStays()
    ensures var h := [Message(Assistant, "", [ToolCall("c1", "read", "")], None, None, None, false),
            ToolMessage("c2", "read", "")];
            !OwnBlocks(Sanitized(h)) && !AllMatched(Sanitized(h))
  {
    var m, t := Message(Assistant, "", [ToolCall("c1", "read", "")], None, None, None, false),
      ToolMessage("c2", "read", "");
    var h := [m, t];
    assert h[1..] == [t] && LeadingTools([t]) == 1 && h[1..2] == [t];
    assert m.calls[0].id == "c1" && !NamesCall(m, t);
    AllMatchedIff(h);
    assert !InScope(ScopeAfter({}, m), t.callId);
    OwnBlocksIff({}, h);
    assert InBlock(h, 0, 1);
  }
}
