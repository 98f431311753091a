/** Reading the learnings store: a later learning replaces an earlier one about the same key,
    where "the same" tolerates typing differences in long keys. */
module Learnings {
  import opened EditDistance

  /** One parsed line. Fields a line does not carry are empty strings; `body` is the rest of the object. */
  datatype Learning = Learning(component: string, scope: string, key: string, body: string)

  /** The first key seen for a topic, and the output index it owns. */
  datatype Slot = Slot(component: string, scope: string, key: string, index: nat)

  predicate Keyed(e: Learning) {
    e.component != "" || e.scope != "" || e.key != ""
  }

  predicate Exact(k: string) {
    |k| < 10 || k[0] == '-'
  }

  ghost predicate KeysMatch(k1: string, k2: string) {
    if Exact(k1) || Exact(k2) then k1 == k2
    else Distance(k1, k2) <= Min(|k1|, |k2|) / 8
  }

  /** Short keys and flags have to be equal; others may be an edit apart for every eight characters of both. */
  method TestKeysMatch(k1: string, k2: string) returns (isMatch: bool)
    ensures isMatch <==> KeysMatch(k1, k2)
    ensures |k1| < 10 || |k2| < 10 || k1[0] == '-' || k2[0] == '-' ==> (isMatch <==> k1 == k2)
    ensures |k1| >= 10 && |k2| >= 10 && k1[0] != '-' && k2[0] != '-' ==>
              (isMatch <==> 8 * Distance(k1, k2) <= |k1| && 8 * Distance(k1, k2) <= |k2|)
  {
    if |k1| < 10 || |k2| < 10 || k1[0] == '-' || k2[0] == '-' {
      isMatch := k1 == k2;
    } else {
      var d := Levenshtein(k1, k2);
      isMatch := d <= Min(|k1|, |k2|) / 8;
    }
  }

  lemma {:induction false} KeysMatchSymmetric(k1: string, k2: string)
    ensures KeysMatch(k1, k1)
    ensures KeysMatch(k1, k2) <==> KeysMatch(k2, k1)
  {
    ZeroIffEqual(k1, k1);
    Symmetric(k1, k2);
  }

  ghost predicate SameTopic(a: Learning, b: Learning) {
    Keyed(a) && Keyed(b) && a.component == b.component && a.scope == b.scope && KeysMatch(a.key, b.key)
  }

  // ----- what reading means, for any notion of "same topic"

  /** Entry i belongs in `slot`: the earliest slot whose representative it matches, or a new one. */
  ghost predicate Belongs<T>(same: (T, T) -> bool, entries: seq<T>, reps: seq<nat>, i: nat, slot: nat)
    requires i < |entries| && slot < |reps| && Representatives(reps, |entries|)
  {
    && (forall s :: 0 <= s < slot ==> !same(entries[reps[s]], entries[i]))
    && (reps[slot] != i ==> reps[slot] < i && same(entries[reps[slot]], entries[i]))
  }

  ghost predicate Representatives(reps: seq<nat>, n: nat) {
    && (forall s :: 0 <= s < |reps| ==> reps[s] < n)
    && (forall s, t :: 0 <= s < t < |reps| ==> reps[s] < reps[t])
  }

  ghost predicate Owners<T>(same: (T, T) -> bool, entries: seq<T>, owner: seq<nat>, reps: seq<nat>)
    requires Representatives(reps, |entries|)
  {
    && |owner| == |entries|
    && (forall i :: 0 <= i < |owner| ==> owner[i] < |reps| && Belongs(same, entries, reps, i, owner[i]))
    && (forall s :: 0 <= s < |reps| ==> owner[reps[s]] == s)
  }

  ghost predicate LastIn(owner: seq<nat>, i: nat)
    requires i < |owner|
  {
    forall j :: i < j < |owner| ==> owner[j] != owner[i]
  }

  ghost predicate ShowsLast<T>(entries: seq<T>, owner: seq<nat>, out: seq<T>)
    requires |owner| == |entries|
  {
    forall i :: 0 <= i < |owner| && LastIn(owner, i) ==> owner[i] < |out| && out[owner[i]] == entries[i]
  }

  /** `owner[i]` is the output slot entry i lands in, `reps[s]` the entry that opened slot s, and
      each slot shows the last entry that landed in it. */
  ghost predicate IsReading<T>(same: (T, T) -> bool, entries: seq<T>, owner: seq<nat>, reps: seq<nat>, out: seq<T>) {
    && Representatives(reps, |entries|)
    && Owners(same, entries, owner, reps)
    && |out| == |reps|
    && ShowsLast(entries, owner, out)
  }

  lemma {:induction false} OpenSlot<T>(same: (T, T) -> bool, entries: seq<T>, owner: seq<nat>, reps: seq<nat>,
      out: seq<T>, e: T)
    requires IsReading(same, entries, owner, reps, out)
    requires forall s :: 0 <= s < |reps| ==> !same(entries[reps[s]], e)
    ensures IsReading(same, entries + [e], owner + [|reps|], reps + [|entries|], out + [e])
  {
    var n, owner', reps' := |entries|, owner + [|reps|], reps + [|entries|];
    forall i | 0 <= i <= n
      ensures owner'[i] < |reps'| && Belongs(same, entries + [e], reps', i, owner'[i])
    {
      if i < n { assert Belongs(same, entries, reps, i, owner[i]); }
    }
    assert Owners(same, entries + [e], owner', reps');
    ShowsMore(entries, owner, out, e, |reps|, out + [e]);
  }

  /** Landing one more entry in `slot`, an old slot or the next new one. */
  lemma {:induction false} ShowsMore<T>(entries: seq<T>, owner: seq<nat>, out: seq<T>, e: T, slot: nat, out': seq<T>)
    requires |owner| == |entries| && ShowsLast(entries, owner, out)
    requires slot < |out'| && out'[slot] == e
    requires forall s :: 0 <= s < |out| && s != slot ==> s < |out'| && out'[s] == out[s]
    ensures ShowsLast(entries + [e], owner + [slot], out')
  {
    var n, owner' := |entries|, owner + [slot];
    forall i | 0 <= i < n && LastIn(owner', i)
      ensures owner[i] < |out'| && out'[owner[i]] == entries[i]
    {
      assert owner'[n] != owner'[i];
      assert forall j :: i < j < n ==> owner'[j] == owner[j];
      assert LastIn(owner, i);
    }
  }

  lemma {:induction false} JoinSlot<T>(same: (T, T) -> bool, entries: seq<T>, owner: seq<nat>, reps: seq<nat>,
      out: seq<T>, e: T, slot: nat)
    requires IsReading(same, entries, owner, reps, out)
    requires slot < |reps| && same(entries[reps[slot]], e)
    requires forall s :: 0 <= s < slot ==> !same(entries[reps[s]], e)
    ensures IsReading(same, entries + [e], owner + [slot], reps, out[slot := e])
  {
    ShowsMore(entries, owner, out, e, slot, out[slot := e]);
  }

  /** The last entry to land in a slot. */
  lemma {:induction false} LastOf(owner: seq<nat>, s: nat, from: nat) returns (i: nat)
    requires from < |owner| && owner[from] == s
    ensures from <= i < |owner| && owner[i] == s && LastIn(owner, i)
  {
    i := |owner| - 1;
    while owner[i] != s
      invariant from <= i < |owner|
      invariant forall j :: i < j < |owner| ==> owner[j] != s
      decreases i
    {
      i := i - 1;
    }
  }

  /** The description leaves no freedom: it fixes the owners, the representatives and the output. */
  lemma {:induction false} ReadingIsUnique<T>(same: (T, T) -> bool, entries: seq<T>, o1: seq<nat>, r1: seq<nat>,
      out1: seq<T>, o2: seq<nat>, r2: seq<nat>, out2: seq<T>)
    requires IsReading(same, entries, o1, r1, out1) && IsReading(same, entries, o2, r2, out2)
    ensures o1 == o2 && r1 == r2 && out1 == out2
  {
    PrefixesAgree(same, entries, o1, r1, o2, r2, |entries|);
    assert o1 == o1[..|entries|] == o2[..|entries|] == o2;
    SameLength(|entries|, r1, r2);
    forall s | 0 <= s < |r1|
      ensures out1[s] == out2[s]
    {
      var i := LastOf(o1, s, r1[s]);
    }
  }

  lemma {:induction false} SameLength(n: nat, r1: seq<nat>, r2: seq<nat>)
    requires Representatives(r1, n) && Representatives(r2, n) && SlotsAgree(r1, r2, n) && SlotsAgree(r2, r1, n)
    ensures r1 == r2
  {
    if |r1| > 0 { assert r1[|r1| - 1] < n; }
    if |r2| > 0 { assert r2[|r2| - 1] < n; }
  }

  /** The slots that the first n entries opened are the same ones. */
  ghost predicate SlotsAgree(r1: seq<nat>, r2: seq<nat>, n: nat) {
    forall s :: 0 <= s < |r1| && r1[s] < n ==> s < |r2| && r2[s] == r1[s]
  }

  lemma {:induction false} NextAgrees<T>(same: (T, T) -> bool, entries: seq<T>, o1: seq<nat>, r1: seq<nat>,
      o2: seq<nat>, r2: seq<nat>, i: nat)
    requires Representatives(r1, |entries|) && Owners(same, entries, o1, r1)
    requires Representatives(r2, |entries|) && Owners(same, entries, o2, r2)
    requires i < |entries| && SlotsAgree(r1, r2, i) && SlotsAgree(r2, r1, i)
    ensures o1[i] == o2[i] && SlotsAgree(r1, r2, i + 1)
  {
    assert Belongs(same, entries, r1, i, o1[i]) && Belongs(same, entries, r2, i, o2[i]);
  }

  lemma {:induction false} PrefixesAgree<T>(same: (T, T) -> bool, entries: seq<T>, o1: seq<nat>, r1: seq<nat>,
      o2: seq<nat>, r2: seq<nat>, n: nat)
    requires Representatives(r1, |entries|) && Owners(same, entries, o1, r1)
    requires Representatives(r2, |entries|) && Owners(same, entries, o2, r2)
    requires n <= |entries|
    ensures o1[..n] == o2[..n] && SlotsAgree(r1, r2, n) && SlotsAgree(r2, r1, n)
  {
    if n > 0 {
      var i := n - 1;
      PrefixesAgree(same, entries, o1, r1, o2, r2, i);
      NextAgrees(same, entries, o1, r1, o2, r2, i);
      NextAgrees(same, entries, o2, r2, o1, r1, i);
      assert o1[..n] == o1[..i] + [o1[i]] && o2[..n] == o2[..i] + [o2[i]];
    }
  }

  // ----- the reader

  /** What a file with these entries reads as. */
  ghost predicate ReadsAs(entries: seq<Learning>, out: seq<Learning>) {
    exists owner, reps :: IsReading(SameTopic, entries, owner, reps, out)
  }

  method ReadLearnings(entries: seq<Learning>) returns (verified: seq<Learning>)
    ensures ReadsAs(entries, verified)
  {
    var shadowed: seq<Slot> := [];
    verified := [];
    ghost var owner: seq<nat>, reps: seq<nat> := [], [];
    for n := 0 to |entries|
      invariant IsReading(SameTopic, entries[..n], owner, reps, verified)
      invariant Tracks(shadowed, entries[..n], reps)
    {
      var entry := entries[n];
      ghost var before := entries[..n];
      assert entries[..n + 1] == before + [entry];
      if entry.component == "" && entry.scope == "" && entry.key == "" {
        OpenSlot(SameTopic, before, owner, reps, verified, entry);
        TracksAfterOpen(shadowed, before, reps, entry);
        verified, owner, reps := verified + [entry], owner + [|reps|], reps + [n];
      } else {
        var found, foundIdx := FindSlot(shadowed, entry, before, reps);
        if found {
          TracksAfterJoin(shadowed, before, reps, entry);
          JoinSlot(SameTopic, before, owner, reps, verified, entry, foundIdx);
          verified, owner := verified[foundIdx := entry], owner + [foundIdx];
        } else {
          OpenSlot(SameTopic, before, owner, reps, verified, entry);
          TracksAfterOpen(shadowed, before, reps, entry);
          shadowed := shadowed + [Slot(entry.component, entry.scope, entry.key, |verified|)];
          verified, owner, reps := verified + [entry], owner + [|reps|], reps + [n];
        }
      }
    }
    assert entries[..|entries|] == entries;
  }

  /** The inner scan: the first slot of the same component and scope whose key matches. */
  method FindSlot(shadowed: seq<Slot>, entry: Learning, ghost before: seq<Learning>, ghost reps: seq<nat>)
    returns (found: bool, index: nat)
    requires Representatives(reps, |before|) && Tracks(shadowed, before, reps)
    requires Keyed(entry)
    ensures found ==> index < |reps| && SameTopic(before[reps[index]], entry)
    ensures forall s :: 0 <= s < (if found then index else |reps|) ==> !SameTopic(before[reps[s]], entry)
  {
    for t := 0 to |shadowed|
      invariant forall u :: 0 <= u < t ==> !SameTopic(before[reps[shadowed[u].index]], entry)
    {
      if shadowed[t].component == entry.component && shadowed[t].scope == entry.scope {
        var isMatch := TestKeysMatch(shadowed[t].key, entry.key);
        if isMatch {
          return true, shadowed[t].index;
        }
      }
    }
    return false, 0;
  }

  ghost predicate Describes(slot: Slot, e: Learning) {
    Keyed(e) && slot.component == e.component && slot.scope == e.scope && slot.key == e.key
  }

  /** The slot table lists exactly the keyed slots, in order. */
  ghost predicate Tracks(shadowed: seq<Slot>, entries: seq<Learning>, reps: seq<nat>)
    requires Representatives(reps, |entries|)
  {
    && (forall t :: 0 <= t < |shadowed| ==>
          shadowed[t].index < |reps| && Describes(shadowed[t], entries[reps[shadowed[t].index]]))
    && (forall t, u :: 0 <= t < u < |shadowed| ==> shadowed[t].index < shadowed[u].index)
    && (forall s :: 0 <= s < |reps| && Keyed(entries[reps[s]]) ==> HasSlot(shadowed, s))
  }

  ghost predicate HasSlot(shadowed: seq<Slot>, s: nat) {
    exists t :: 0 <= t < |shadowed| && shadowed[t].index == s
  }

  lemma {:induction false} TracksAfterOpen(shadowed: seq<Slot>, entries: seq<Learning>, reps: seq<nat>, e: Learning)
    requires Representatives(reps, |entries|) && Tracks(shadowed, entries, reps)
    ensures Representatives(reps + [|entries|], |entries + [e]|)
    ensures !Keyed(e) ==> Tracks(shadowed, entries + [e], reps + [|entries|])
    ensures Keyed(e) ==>
              Tracks(shadowed + [Slot(e.component, e.scope, e.key, |reps|)], entries + [e], reps + [|entries|])
  {
    var entries', reps' := entries + [e], reps + [|entries|];
    var shadowed' := shadowed + [Slot(e.component, e.scope, e.key, |reps|)];
    forall s | 0 <= s < |reps| && Keyed(entries'[reps'[s]])
      ensures HasSlot(shadowed, s) && HasSlot(shadowed', s)
    {
      assert Keyed(entries[reps[s]]) && HasSlot(shadowed, s);
      var t :| 0 <= t < |shadowed| && shadowed[t].index == s;
      assert shadowed'[t].index == s;
    }
    assert shadowed'[|shadowed|].index == |reps|;
  }

  lemma {:induction false} TracksAfterJoin(shadowed: seq<Slot>, entries: seq<Learning>, reps: seq<nat>, e: Learning)
    requires Representatives(reps, |entries|) && Tracks(shadowed, entries, reps)
    ensures Representatives(reps, |entries + [e]|) && Tracks(shadowed, entries + [e], reps)
  {
    forall s | 0 <= s < |reps| && Keyed((entries + [e])[reps[s]])
      ensures HasSlot(shadowed, s)
    {
      assert Keyed(entries[reps[s]]);
    }
  }

  // ----- consequences

  /** Every entry without topic survives as it is, in a slot of its own. */
  lemma {:induction false} UnkeyedSurvive(entries: seq<Learning>, owner: seq<nat>, reps: seq<nat>, out: seq<Learning>,
      i: nat)
    requires IsReading(SameTopic, entries, owner, reps, out)
    requires i < |entries| && entries[i].component == "" && entries[i].scope == "" && entries[i].key == ""
    ensures owner[i] < |out| && out[owner[i]] == entries[i]
    ensures forall k :: 0 <= k < |entries| && owner[k] == owner[i] ==> k == i
  {
    Alone(SameTopic, entries, owner, reps, out, i);
    forall k | 0 <= k < |entries| && owner[k] == owner[i]
      ensures k == i
    {
      assert Belongs(SameTopic, entries, reps, k, owner[k]);
    }
  }

  /** Two entries with the same component, scope and key, not all of them empty, are in one slot. */
  lemma {:induction false} SameNamesShareASlot(entries: seq<Learning>, owner: seq<nat>, reps: seq<nat>,
      out: seq<Learning>, i: nat, j: nat)
    requires IsReading(SameTopic, entries, owner, reps, out) && i < j < |entries|
    requires entries[i].component == entries[j].component && entries[i].scope == entries[j].scope
    requires entries[i].key == entries[j].key
    requires entries[i].component != "" || entries[i].scope != "" || entries[i].key != ""
    ensures owner[i] == owner[j]
  {
    assert Belongs(SameTopic, entries, reps, i, owner[i]) && Belongs(SameTopic, entries, reps, j, owner[j]);
    KeysMatchSymmetric(entries[i].key, entries[i].key);
    assert SameTopic(entries[i], entries[j]);
    forall k | 0 <= k < |entries|
      ensures SameTopic(entries[k], entries[i]) <==> SameTopic(entries[k], entries[j])
    {
    }
    var a, b := reps[owner[i]], reps[owner[j]];
    assert SameTopic(entries[a], entries[j]);
    assert b < i ==> SameTopic(entries[b], entries[i]);
  }

  /** And such entries stand in their order. */
  lemma {:induction false} UnkeyedKeepOrder(entries: seq<Learning>, owner: seq<nat>, reps: seq<nat>, out: seq<Learning>,
      i: nat, j: nat)
    requires IsReading(SameTopic, entries, owner, reps, out)
    requires i < j < |entries| && !Keyed(entries[i]) && !Keyed(entries[j])
    ensures owner[i] < owner[j] < |out|
  {
    Alone(SameTopic, entries, owner, reps, out, i);
    Alone(SameTopic, entries, owner, reps, out, j);
    SlotsInOrder(reps, |entries|, owner[i], owner[j]);
  }

  lemma {:induction false} SlotsInOrder(reps: seq<nat>, n: nat, s: nat, t: nat)
    requires Representatives(reps, n) && s < |reps| && t < |reps|
    ensures reps[s] < reps[t] ==> s < t
  {
  }

  lemma {:induction false} Alone<T>(same: (T, T) -> bool, entries: seq<T>, owner: seq<nat>, reps: seq<nat>, out: seq<T>,
      i: nat)
    requires IsReading(same, entries, owner, reps, out)
    requires i < |entries| && forall k :: 0 <= k < |entries| ==>
             !same(entries[k], entries[i]) && !same(entries[i], entries[k])
    ensures reps[owner[i]] == i && out[owner[i]] == entries[i]
  {
    assert Belongs(same, entries, reps, i, owner[i]);
    var last := LastOf(owner, owner[i], i);
    assert Belongs(same, entries, reps, last, owner[i]);
  }

  /** No two slots were opened for one topic, and slots appear in the order their topics did. */
  lemma {:induction false} SlotsAreDistinct(entries: seq<Learning>, owner: seq<nat>, reps: seq<nat>, out: seq<Learning>,
      s: nat, t: nat)
    requires IsReading(SameTopic, entries, owner, reps, out)
    requires s < t < |out|
    ensures reps[s] < reps[t] && !SameTopic(entries[reps[s]], entries[reps[t]])
  {
    assert Belongs(SameTopic, entries, reps, reps[t], owner[reps[t]]);
  }

  /** Matching is not transitive, but what shares a slot stays within a quarter of its
      representative's length. */
  lemma {:induction false} SlotDiameter(entries: seq<Learning>, owner: seq<nat>, reps: seq<nat>, out: seq<Learning>,
      i: nat, j: nat)
    requires IsReading(SameTopic, entries, owner, reps, out)
    requires i < |entries| && j < |entries| && i != j && owner[i] == owner[j]
    ensures entries[i].component == entries[j].component && entries[i].scope == entries[j].scope
    ensures var rep := entries[reps[owner[i]]].key;
            if Exact(rep) then entries[i].key == entries[j].key
            else Distance(entries[i].key, entries[j].key) <= |rep| / 4
  {
    var r := entries[reps[owner[i]]];
    WithinAnEighth(entries, owner, reps, out, i);
    WithinAnEighth(entries, owner, reps, out, j);
    Triangle(entries[i].key, r.key, entries[j].key);
  }

  lemma {:induction false} WithinAnEighth(entries: seq<Learning>, owner: seq<nat>, reps: seq<nat>, out: seq<Learning>,
      i: nat)
    requires IsReading(SameTopic, entries, owner, reps, out)
    requires i < |entries|
    ensures var r := entries[reps[owner[i]]];
            && r.component == entries[i].component && r.scope == entries[i].scope
            && (if Exact(r.key) then r.key == entries[i].key else Distance(entries[i].key, r.key) <= |r.key| / 8)
  {
    assert Belongs(SameTopic, entries, reps, i, owner[i]);
    ZeroIffEqual(entries[i].key, entries[reps[owner[i]]].key);
    Symmetric(entries[i].key, entries[reps[owner[i]]].key);
  }

  ghost predicate NoTopicTwice(out: seq<Learning>) {
    forall i, j :: 0 <= i < j < |out| ==> !SameTopic(out[i], out[j])
  }

  /** Reading is stable on its own output exactly when no two surviving entries share a topic. */
  lemma {:induction false} RereadIsIdentityIff(out: seq<Learning>, owner: seq<nat>, reps: seq<nat>,
      again: seq<Learning>)
    requires IsReading(SameTopic, out, owner, reps, again)
    ensures again == out <==> NoTopicTwice(out)
  {
    var id: seq<nat> := seq(|out|, i => i);
    if NoTopicTwice(out) {
      forall i | 0 <= i < |out|
        ensures Belongs(SameTopic, out, id, i, id[i])
      {
      }
      ReadingIsUnique(SameTopic, out, owner, reps, again, id, id, out);
    } else if again == out {
      IncreasingIsIdentity(reps, |out|);
      forall i, j | 0 <= i < j < |out|
        ensures !SameTopic(out[i], out[j])
      {
        SlotsAreDistinct(out, owner, reps, again, i, j);
      }
    }
  }

  lemma {:induction false} SameTopicSymmetric(a: Learning, b: Learning)
    ensures SameTopic(a, b) <==> SameTopic(b, a)
  {
    KeysMatchSymmetric(a.key, b.key);
  }

  /** No two entries that are each the last of their slot share a topic. */
  ghost predicate LastOnesDiffer(entries: seq<Learning>, owner: seq<nat>)
    requires |owner| == |entries|
  {
    forall i, j :: 0 <= i < j < |entries| && LastIn(owner, i) && LastIn(owner, j) ==> !SameTopic(entries[i], entries[j])
  }

  /** On the entries themselves: reading what was read gives it back exactly when the last entries of the
      slots have different topics. */
  lemma {:induction false} RereadIsIdentityIffLast(entries: seq<Learning>, owner: seq<nat>, reps: seq<nat>,
      out: seq<Learning>, again: seq<Learning>)
    requires IsReading(SameTopic, entries, owner, reps, out) && ReadsAs(out, again)
    ensures again == out <==> LastOnesDiffer(entries, owner)
  {
    var owner', reps' :| IsReading(SameTopic, out, owner', reps', again);
    RereadIsIdentityIff(out, owner', reps', again);
    if NoTopicTwice(out) {
      forall i, j | 0 <= i < j < |entries| && LastIn(owner, i) && LastIn(owner, j)
        ensures !SameTopic(entries[i], entries[j])
      {
        assert out[owner[i]] == entries[i] && out[owner[j]] == entries[j];
        SameTopicSymmetric(entries[i], entries[j]);
      }
    }
    if LastOnesDiffer(entries, owner) {
      forall s, t | 0 <= s < t < |out|
        ensures !SameTopic(out[s], out[t])
      {
        SlotsDiffer(entries, owner, reps, out, s, t);
      }
    }
  }

  /** The entry that a slot shows. */
  lemma {:induction false} Shown(entries: seq<Learning>, owner: seq<nat>, reps: seq<nat>, out: seq<Learning>, s: nat)
    returns (i: nat)
    requires IsReading(SameTopic, entries, owner, reps, out) && s < |out|
    ensures i < |entries| == |owner| && owner[i] == s && LastIn(owner, i) && out[s] == entries[i]
  {
    i := LastOf(owner, s, reps[s]);
  }

  lemma {:induction false} SlotsDiffer(entries: seq<Learning>, owner: seq<nat>, reps: seq<nat>, out: seq<Learning>,
      s: nat, t: nat)
    requires IsReading(SameTopic, entries, owner, reps, out) && LastOnesDiffer(entries, owner) && s < t < |out|
    ensures !SameTopic(out[s], out[t])
  {
    var i := Shown(entries, owner, reps, out, s);
    var j := Shown(entries, owner, reps, out, t);
    LastTwoDiffer(entries, owner, i, j);
  }

  lemma {:induction false} LastTwoDiffer(entries: seq<Learning>, owner: seq<nat>, i: nat, j: nat)
    requires |owner| == |entries| && LastOnesDiffer(entries, owner) && i < |entries| && j < |entries| && i != j
    requires LastIn(owner, i) && LastIn(owner, j)
    ensures !SameTopic(entries[i], entries[j])
  {
    SameTopicSymmetric(entries[i], entries[j]);
  }

  /** What appending does to a store as it reads: the new entry takes over the first slot opened for its topic,
      or comes last, and no other slot changes. */
  lemma {:induction false} OneMoreEntry(entries: seq<Learning>, owner: seq<nat>, reps: seq<nat>, out: seq<Learning>,
      e: Learning, out': seq<Learning>)
    requires IsReading(SameTopic, entries, owner, reps, out) && ReadsAs(entries + [e], out')
    ensures (forall s :: 0 <= s < |reps| ==> !SameTopic(entries[reps[s]], e)) ==> out' == out + [e]
    ensures forall slot: nat :: FirstSlot(entries, reps, e, slot) ==> TakesOver(out, slot, e, out')
  {
    var owner', reps' :| IsReading(SameTopic, entries + [e], owner', reps', out');
    if forall s :: 0 <= s < |reps| ==> !SameTopic(entries[reps[s]], e) {
      OpenSlot(SameTopic, entries, owner, reps, out, e);
      ReadingIsUnique(SameTopic, entries + [e], owner', reps', out', owner + [|reps|], reps + [|entries|], out + [e]);
    }
    forall slot: nat | FirstSlot(entries, reps, e, slot)
      ensures TakesOver(out, slot, e, out')
    {
      JoinSlot(SameTopic, entries, owner, reps, out, e, slot);
      ReadingIsUnique(SameTopic, entries + [e], owner', reps', out', owner + [slot], reps, out[slot := e]);
    }
  }

  predicate TakesOver(out: seq<Learning>, slot: nat, e: Learning, out': seq<Learning>) {
    slot < |out| && out' == out[slot := e]
  }

  ghost predicate FirstSlot(entries: seq<Learning>, reps: seq<nat>, e: Learning, slot: nat)
    requires Representatives(reps, |entries|)
  {
    slot < |reps| && SameTopic(entries[reps[slot]], e) && forall s :: 0 <= s < slot ==> !SameTopic(entries[reps[s]], e)
  }

  lemma {:induction false} FindFirst(entries: seq<Learning>, reps: seq<nat>, e: Learning, n: nat) returns (slot: nat)
    requires Representatives(reps, |entries|) && n < |reps| && SameTopic(entries[reps[n]], e)
    ensures FirstSlot(entries, reps, e, slot)
    decreases n
  {
    slot := n;
    if s: nat :| s < n && SameTopic(entries[reps[s]], e) { slot := FindFirst(entries, reps, e, s); }
  }

  /** So an appended learning is always shown, and displaces at most one. */
  lemma {:induction false} AppendedIsShown(entries: seq<Learning>, out: seq<Learning>, e: Learning, out': seq<Learning>)
    requires ReadsAs(entries, out) && ReadsAs(entries + [e], out')
    ensures e in out' && (out' == out + [e] || exists slot: nat :: TakesOver(out, slot, e, out'))
  {
    var owner, reps :| IsReading(SameTopic, entries, owner, reps, out);
    OneMoreEntry(entries, owner, reps, out, e, out');
    if n: nat :| n < |reps| && SameTopic(entries[reps[n]], e) {
      var slot := FindFirst(entries, reps, e, n);
      assert TakesOver(out, slot, e, out') && out'[slot] == e;
    } else {
      assert out'[|out|] == e;
    }
  }

  lemma {:induction false} IncreasingIsIdentity(reps: seq<nat>, n: nat)
    requires Representatives(reps, n) && |reps| == n
    ensures forall s :: 0 <= s < n ==> reps[s] == s
  {
    forall s | 0 <= s < n
      ensures s <= reps[s]
    {
      AtLeast(reps, n, s);
    }
    forall s | 0 <= s < n
      ensures reps[s] <= s
    {
      AtMost(reps, n, s);
    }
  }

  lemma {:induction false} AtLeast(reps: seq<nat>, n: nat, s: nat)
    requires Representatives(reps, n) && s < |reps|
    ensures s <= reps[s]
  {
    if s > 0 { AtLeast(reps, n, s - 1); }
  }

  lemma {:induction false} AtMost(reps: seq<nat>, n: nat, s: nat)
    requires Representatives(reps, n) && s < |reps| == n
    ensures reps[s] <= s
    decreases n - s
  {
    if s + 1 < n { AtMost(reps, n, s + 1); }
  }

  /** It is not always stable: three keys, each one letter longer than the last. */
  lemma {:induction false} RereadCanShrink()
    returns (entries: seq<Learning>, owner: seq<nat>, reps: seq<nat>, out: seq<Learning>)
    ensures IsReading(SameTopic, entries, owner, reps, out)
    ensures !NoTopicTwice(out)
  {
    var a := "aaaaaaaaaa";
    GrowingKeys(a, 'a');
    var ea, eb, ec := Learning("c", "s", a, ""), Learning("c", "s", a + ['a'], ""),
      Learning("c", "s", a + ['a'] + ['a'], "");
    entries, owner, reps, out := [ea, ec, eb], [0, 1, 0], [0, 1], [eb, ec];
    Interleaved(SameTopic, ea, eb, ec);
    assert SameTopic(out[0], out[1]);
  }

  lemma {:induction false} GrowingKeys(a: string, c: char)
    requires !Exact(a) && |a| == 10
    ensures KeysMatch(a, a + [c]) && KeysMatch(a + [c], a + [c] + [c]) && !KeysMatch(a, a + [c] + [c])
  {
    forall k: string | k == a || k == a + [c]
      ensures Distance(k, k + [c]) <= 1
    {
      ZeroIffEqual(k, k);
      InsertLast(k, k, c);
    }
    LengthBounds(a, a + [c] + [c]);
  }

  lemma {:induction false} Interleaved<T>(same: (T, T) -> bool, a: T, b: T, c: T)
    requires same(a, b) && !same(a, c)
    ensures IsReading(same, [a, c, b], [0, 1, 0], [0, 1], [b, c])
  {
    var entries, owner, reps := [a, c, b], [0, 1, 0], [0, 1];
    assert Belongs(same, entries, reps, 0, 0) && Belongs(same, entries, reps, 1, 1) &&
           Belongs(same, entries, reps, 2, 0);
    assert owner[2] == owner[0];
    assert !LastIn(owner, 0);
  }
}
