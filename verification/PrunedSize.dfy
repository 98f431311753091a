/** How long a pruned conversation is once it has been repaired, which is what is sent. */
module PrunedSize {
  import opened Text
  import opened Transcript
  import opened Pruning

  /** The characters the repair adds: the stand-ins for open calls, and what notes say before an orphan's
      own text. */
  function Added(scope: set<string>, h: seq<Message>): nat
    decreases |h|
  {
    if h == [] then 0 else AddedHere(scope, h) + Added(ScopeAfterRound(scope, h), Round(scope, h).1)
  }

  function AddedHere(scope: set<string>, h: seq<Message>): nat
    requires h != []
  {
    if h[0].role == Tool && !InScope(scope, h[0].callId) then |OrphanNote(h[0].(content := "")).content|
    else if MakesCalls(h[0]) then |INTERRUPTED| * |StandIns(h[0].calls, h[1..RoundLength(h)])|
    else 0
  }

  lemma {:induction false} CharsOfStandIns(calls: seq<ToolCall>, block: seq<Message>)
    ensures Chars(StandIns(calls, block)) == |INTERRUPTED| * |StandIns(calls, block)|
  {
    if calls != [] {
      var one := ToolMessage(calls[0].id, calls[0].name, INTERRUPTED);
      var rest := StandIns(calls[1..], block);
      CharsOfStandIns(calls[1..], block);
      if Answers(block, calls[0].id) {
        assert StandIns(calls, block) == rest;
      } else {
        assert StandIns(calls, block) == [one] + rest;
        CharsConcat([one], rest);
        OneMessage(one);
        Distributes(|INTERRUPTED|, |rest|);
      }
    }
  }

  lemma {:induction false} Distributes(k: nat, n: nat)
    ensures k + k * n == k * (1 + n)
  {
  }

  lemma {:induction false} CharsOfRound(scope: set<string>, h: seq<Message>)
    requires h != []
    ensures Chars(Round(scope, h).0) == Chars(h[..RoundLength(h)]) + AddedHere(scope, h)
  {
    var d := RoundLength(h);
    if MakesCalls(h[0]) {
      var block := h[1..d];
      assert h[..d] == [h[0]] + block;
      CharsConcat([h[0]] + block, StandIns(h[0].calls, block));
      CharsOfStandIns(h[0].calls, block);
    } else {
      assert h[..d] == [h[0]];
      OneMessage(h[0]);
      OneMessage(Round(scope, h).0[0]);
      OrphanGrows(h[0]);
    }
  }

  lemma {:induction false} OneMessage(m: Message)
    ensures Chars([m]) == |m.content|
  {
    assert [m][1..] == [];
  }

  lemma {:induction false} OrphanGrows(m: Message)
    ensures |OrphanNote(m).content| == |OrphanNote(m.(content := "")).content| + |m.content|
  {
  }

  /** A repair is longer by exactly that. */
  lemma {:induction false} RepairedChars(scope: set<string>, h: seq<Message>)
    ensures Chars(Repair(scope, h)) == Chars(h) + Added(scope, h)
    decreases |h|
  {
    if h != [] {
      var next, rest, d := Round(scope, h).0, Round(scope, h).1, RoundLength(h);
      RepairedChars(ScopeAfterRound(scope, h), rest);
      RoundRest(scope, h);
      CharsOfRound(scope, h);
      CharsConcat(next, Repair(ScopeAfterRound(scope, h), rest));
      assert h == h[..d] + h[d..];
      CharsConcat(h[..d], h[d..]);
    }
  }

  /** What an API is sent after turns were dropped: within the budget, but for the notice, the stand-ins and
      the notes. */
  lemma {:induction false} SentFits(ms: seq<Message>, cut: nat)
    requires TooLong(ms) && IsCut(Middle(ms), Base(ms), cut)
    ensures var kept := WithoutTurns(ms, cut);
            Chars(Sanitized(kept)) <=
            |Notice(cut).content| + (if Base(ms) <= MAX_CLOUD_CHARS then MAX_CLOUD_CHARS else Base(ms)) +
              Added({}, kept)
  {
    PrunedFits(ms, cut);
    RepairedChars({}, WithoutTurns(ms, cut));
  }

  /** Nothing is added where nothing is repaired. */
  lemma {:induction false} NothingAddedIff(scope: set<string>, h: seq<Message>)
    ensures Added(scope, h) == 0 <==> Accepted(true, scope, h)
    decreases |h|
  {
    if h != [] {
      RoundRest(scope, h);
      NothingAddedIff(ScopeAfterRound(scope, h), Round(scope, h).1);
      AddedNothingHere(scope, h);
    }
  }

  lemma {:induction false} AddedNothingHere(scope: set<string>, h: seq<Message>)
    requires h != []
    ensures AddedHere(scope, h) == 0 <==> FirstAccepted(true, scope, h)
  {
    if MakesCalls(h[0]) {
      NoStandInsIff(h[0].calls, h[1..RoundLength(h)]);
      assert |INTERRUPTED| > 0;
    }
  }
}
