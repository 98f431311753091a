/** The active workspace and conversation after the migration, and what a second pass does. */
module CoderPointers {
  import opened Text
  import opened CoderStore

  // ----- orders and active pointers

  /** The order lists each conversation once, and ids are not empty. */
  ghost predicate Sound(ws: WsData) {
    && ws.conversations.Valid()
    && "" !in ws.conversations.vals
    && NoRepeats(ws.order)
    && forall c :: c in ws.order <==> c in ws.conversations.vals
  }

  ghost predicate AllSound(o: Obj<WsData>) {
    o.Valid() && EachSound(o)
  }

  /** A conversation to show: one that exists, or none where there is none. */
  predicate Shows(ws: WsData, conv: string) {
    conv in ws.conversations.vals || (conv == "" && ws.order == [])
  }

  /** It does not point at a conversation it lacks. */
  predicate Harmless(ws: WsData) {
    ws.activeConv.Some? ==> Shows(ws, ws.activeConv.value)
  }

  predicate Settled(ws: WsData) {
    ws.activeConv.Some? && Shows(ws, ws.activeConv.value)
  }

  lemma {:induction false} MergedIsSound(twin: WsData, ws: WsData)
    requires Sound(twin) && Sound(ws)
    ensures Sound(Merged(twin, ws)) && Settled(Merged(twin, ws))
  {
    var more := Missing(ws.conversations.keys, twin.conversations.vals);
    MergedIsValid(twin, ws);
    MissingHas(ws.conversations.keys, twin.conversations.vals);
    NoRepeatsConcat(twin.order, more);
  }

  ghost predicate AllSettled(o: Obj<WsData>) {
    forall p :: p in o.vals ==> Settled(o.vals[p])
  }

  ghost predicate EachSound(o: Obj<WsData>) {
    forall p :: p in o.vals ==> Sound(o.vals[p])
  }

  lemma {:induction false} MoveOneIsSound(strip: string -> string, o: Obj<WsData>, key: string, ws: WsData)
    requires EachSound(o) && Sound(ws)
    ensures EachSound(MoveOne(strip, o, key, ws))
    ensures AllSettled(o) && Settled(ws) ==> AllSettled(MoveOne(strip, o, key, ws))
  {
    var plain := strip(key);
    if plain != key && plain in o.vals { MergedIsSound(o.vals[plain], ws); }
  }

  lemma {:induction false} MoveAllIsSound(strip: string -> string, o: Obj<WsData>, n: nat)
    requires EachSound(o) && KeysHeld(o) && n <= |o.keys|
    ensures EachSound(MoveAll(strip, o, n))
    ensures AllSettled(o) ==> AllSettled(MoveAll(strip, o, n))
  {
    if n > 0 {
      MoveAllIsSound(strip, o, n - 1);
      MoveOneIsSound(strip, MoveAll(strip, o, n - 1), o.keys[n - 1], o.vals[o.keys[n - 1]]);
    }
  }

  /** The store once its keys are plain, before the pointers are set. */
  function Moved(s: Store): Obj<WsData>
    requires s.Valid()
  {
    MoveAll(StripExtPrefix, s.workspaces, |s.workspaces.keys|)
  }

  /** The active workspace names an entry, and its conversation is one that entry shows. */
  predicate PointsWell(r: Store) {
    if r.activeWs == "" then r.activeConv == ""
    else r.activeWs in r.workspaces.vals && Shows(r.workspaces.vals[r.activeWs], r.activeConv)
  }

  /** The active workspace survived the migration, or the store has no first workspace with a name. */
  predicate Chosen(o: Obj<WsData>, activeWs: string) {
    Known(o, activeWs) || First(o.keys) == ""
  }

  lemma {:induction false} PointIsSound(o: Obj<WsData>, activeWs: string, activeConv: string)
    requires AllSound(o)
    ensures var r := Point(o, activeWs, activeConv);
            && AllSound(r.workspaces)
            && (PointsWell(r) <==>
                Chosen(o, activeWs) || Harmless(o.vals[First(o.keys)]))
            && (Known(o, activeWs) ==> Settled(r.workspaces.vals[activeWs]))
            && (AllSettled(o) ==> AllSettled(r.workspaces))
  {
    if Known(o, activeWs) {
      o.PutIsValid(activeWs, Point(o, activeWs, activeConv).workspaces.vals[activeWs]);
    } else if First(o.keys) != "" {
      assert o.keys[0] in o.keys;
    }
  }

  lemma {:induction false} PointersInMoved(s: Store)
    requires s.Valid() && AllSound(s.workspaces)
    ensures AllValid(Moved(s)) && AllSound(Normalized(s).workspaces)
    ensures PointsWell(Normalized(s)) <==>
            Chosen(Moved(s), StripExtPrefix(s.activeWs)) || Harmless(Moved(s).vals[First(Moved(s).keys)])
  {
    MoveAllIsValid(StripExtPrefix, s.workspaces, |s.workspaces.keys|);
    MoveAllIsSound(StripExtPrefix, s.workspaces, |s.workspaces.keys|);
    PointIsSound(Moved(s), StripExtPrefix(s.activeWs), s.activeConv);
  }

  // ----- a second pass

  lemma {:induction false} PlainStays(strip: string -> string, o: Obj<WsData>, n: nat)
    requires AllValid(o) && n <= |o.keys| && forall p :: p in o.vals ==> strip(p) == p
    ensures MoveAll(strip, o, n) == o
  {
    if n > 0 {
      PlainStays(strip, o, n - 1);
      assert o.keys[n - 1] in o.keys;
    }
  }

  /** A key left prefixed makes the next pass change the store: the longest such key goes. */
  lemma {:induction false} PrefixedGoes(strip: string -> string, o: Obj<WsData>, p: string, bound: nat)
    requires (forall k :: strip(k) != k ==> |strip(k)| < |k|)
    requires AllValid(o) && p in o.vals && strip(p) != p
    requires |p| <= bound && forall k :: k in o.vals ==> |k| <= bound
    ensures MoveAll(strip, o, |o.keys|).vals.Keys != o.vals.Keys
    decreases bound - |p|
  {
    MovedHolds(strip, o, p, |o.keys|);
    FinalArrivals(strip, o.keys, p);
    var who := Arrivals(strip, o.keys, p, |o.keys|);
    if who == [] {
      assert p !in MoveAll(strip, o, |o.keys|).vals;
    } else {
      assert who[0] in who && o.keys[who[0]] in o.keys;
      PrefixedGoes(strip, o, o.keys[who[0]], bound);
    }
  }

  function Longest(keys: seq<string>): (n: nat)
    ensures forall k :: k in keys ==> |k| <= n
  {
    if keys == [] then 0
    else
      var n, k := Longest(keys[..|keys| - 1]), keys[|keys| - 1];
      assert keys == keys[..|keys| - 1] + [k];
      if |k| > n then |k| else n
  }

  /** Pointing again changes nothing exactly when the workspace pointed at is settled. */
  lemma {:induction false} PointAgain(o: Obj<WsData>, activeWs: string, activeConv: string)
    requires AllSound(o)
    ensures var r := Point(o, activeWs, activeConv);
            && r.workspaces.Valid()
            && (Point(r.workspaces, r.activeWs, r.activeConv) == r <==>
                Chosen(o, activeWs) || Settled(o.vals[First(o.keys)]))
  {
    var r := Point(o, activeWs, activeConv);
    PointIsSound(o, activeWs, activeConv);
    if Known(o, activeWs) {
      SettledStays(r.workspaces, activeWs, r.activeConv);
    } else if First(o.keys) != "" {
      var k := First(o.keys);
      assert o.keys[0] in o.keys;
      if Settled(o.vals[k]) { SettledStays(o, k, r.activeConv); }
    }
  }

  lemma {:induction false} SettledStays(o: Obj<WsData>, activeWs: string, conv: string)
    requires AllSound(o) && Known(o, activeWs)
    requires Settled(o.vals[activeWs]) && o.vals[activeWs].activeConv == Some(conv)
    ensures Point(o, activeWs, conv) == Store(activeWs, conv, o)
  {
    var w := o.vals[activeWs];
    assert w.(activeConv := Some(conv)) == w;
    assert o.vals[activeWs := w] == o.vals;
  }

  lemma {:induction false} SecondPassInMoved(s: Store)
    requires s.Valid() && AllSound(s.workspaces)
    ensures AllValid(Moved(s)) && AllSound(Moved(s)) && Normalized(s).Valid()
    ensures Normalized(Normalized(s)) == Normalized(s) <==>
            && (forall p :: p in Moved(s).vals ==> !Prefixed(p))
            && (Chosen(Moved(s), StripExtPrefix(s.activeWs)) || Settled(Moved(s).vals[First(Moved(s).keys)]))
  {
    var o, n := Moved(s), |s.workspaces.keys|;
    MoveAllIsValid(StripExtPrefix, s.workspaces, n);
    MoveAllIsSound(StripExtPrefix, s.workspaces, n);
    PointersInMoved(s);
    PointAgain(o, StripExtPrefix(s.activeWs), s.activeConv);
    SameKeys(s);
    var r := Normalized(s);
    if p :| p in o.vals && Prefixed(p) {
      PrefixedGoes(StripExtPrefix, r.workspaces, p, Longest(r.workspaces.keys));
      SameKeys(r);
    } else {
      PlainStays(StripExtPrefix, r.workspaces, |r.workspaces.keys|);
      assert !Prefixed(r.activeWs) by { if o.keys != [] { assert o.keys[0] in o.keys; } }
    }
  }

  lemma {:induction false} SameKeys(s: Store)
    requires s.Valid()
    ensures AllValid(Moved(s))
    ensures Normalized(s).workspaces.vals.Keys == Moved(s).vals.Keys
  {
    MoveAllIsValid(StripExtPrefix, s.workspaces, |s.workspaces.keys|);
    forall p ensures p in Normalized(s).workspaces.vals <==> p in Moved(s).vals {
      PointKeeps(Moved(s), StripExtPrefix(s.activeWs), s.activeConv, p);
    }
  }

  /** A well-formed store is well-formed after the pass, and a second pass leaves it alone. */
  lemma {:induction false} WellFormedStoresSettle(s: Store)
    requires s.Valid() && AllSound(s.workspaces) && AllSettled(s.workspaces) && NoneDoubled(s.workspaces.keys)
    ensures Normalized(s).Valid() && AllSound(Normalized(s).workspaces) && AllSettled(Normalized(s).workspaces)
    ensures PointsWell(Normalized(s)) && Normalized(Normalized(s)) == Normalized(s)
  {
    var o, n := Moved(s), |s.workspaces.keys|;
    MoveAllIsValid(StripExtPrefix, s.workspaces, n);
    MoveAllIsSound(StripExtPrefix, s.workspaces, n);
    PointIsSound(o, StripExtPrefix(s.activeWs), s.activeConv);
    SecondPassInMoved(s);
    PointersInMoved(s);
    SameKeys(s);
    forall p | p in o.vals ensures !Prefixed(p) {
      SpellingsAreGathered(s, p, "");
    }
    if o.keys != [] { assert o.keys[0] in o.keys; }
  }

  /** What the store pointed at stays what it points at, if it is there. */
  lemma {:induction false} ValidPointersStay(s: Store)
    requires s.Valid()
    ensures var a, r := StripExtPrefix(s.activeWs), Normalized(s);
            AllValid(Moved(s)) && (Known(Moved(s), a) ==>
              && r.activeWs == a
              && r.workspaces.vals[a].activeConv == Some(r.activeConv)
              && (Names(Some(s.activeConv), Moved(s).vals[a].conversations) ==> r.activeConv == s.activeConv))
  {
    MoveAllIsValid(StripExtPrefix, s.workspaces, |s.workspaces.keys|);
  }

  /** Where the pointers point, whatever the store: at the workspace pointed at, if it is there, and in it at the
      conversation pointed at, else its own active one, else its first, whichever is there first; or else at the
      first workspace and what that calls active, unchecked, or its first conversation. */
  lemma {:induction false} PointersAre(s: Store)
    requires s.Valid()
    ensures AllValid(Moved(s))
    ensures var a, o, r := StripExtPrefix(s.activeWs), Moved(s), Normalized(s);
            if a != "" && a in o.vals then
              var w := o.vals[a];
              && r.activeWs == a
              && (s.activeConv != "" && s.activeConv in w.conversations.vals ==> r.activeConv == s.activeConv)
              && ((s.activeConv == "" || s.activeConv !in w.conversations.vals) ==>
                    r.activeConv == if Names(w.activeConv, w.conversations) then w.activeConv.value else First(w.order))
            else if o.keys == [] then r.activeWs == "" && r.activeConv == ""
            else
              && r.activeWs == o.keys[0]
              && (r.activeWs != "" ==>
                    o.keys[0] in o.vals && var w := o.vals[o.keys[0]];
                    r.activeConv == if w.activeConv.Some? then w.activeConv.value else First(w.order))
  {
    MoveAllIsValid(StripExtPrefix, s.workspaces, |s.workspaces.keys|);
    if Moved(s).keys != [] { assert Moved(s).keys[0] in Moved(s).keys; }
  }

  // ----- the first key afterwards, read off the keys before

  /** The keys that stripping leaves alone. */
  function PlainOnes(strip: string -> string, keys: seq<string>): seq<string> {
    if keys == [] then []
    else
      var k := keys[|keys| - 1];
      PlainOnes(strip, keys[..|keys| - 1]) + if strip(k) == k then [k] else []
  }

  /** The keys that `n` turns have put at the end. */
  function Landed(strip: string -> string, keys: seq<string>, n: nat): seq<string>
    requires n <= |keys|
  {
    if n == 0 then []
    else
      var k, before := keys[n - 1], Landed(strip, keys, n - 1);
      if strip(k) == k || strip(k) in PlainOnes(strip, keys[..n - 1]) + keys[n..] + before then before
      else before + [strip(k)]
  }

  lemma {:induction false} WithoutMiddle(a: seq<string>, x: string, b: seq<string>)
    requires x !in a && x !in b
    ensures Without(a + [x] + b, x) == a + b
  {
    if b == [] {
      assert a + [x] + b == a + [x] && a + b == a;
      assert (a + [x])[..|a|] == a;
      WithoutNone(a, x);
    } else {
      var m := |b| - 1;
      var all := a + [x] + b;
      assert all[..|all| - 1] == a + [x] + b[..m] && all[|all| - 1] == b[m];
      WithoutMiddle(a, x, b[..m]);
      assert a + b[..m] + [b[m]] == a + b;
    }
  }

  lemma {:induction false} WithoutNone(a: seq<string>, x: string)
    requires x !in a
    ensures Without(a, x) == a
  {
    if a != [] { WithoutNone(a[..|a| - 1], x); }
  }

  /** The plain keys so far, the keys still to come, and those that landed. */
  function KeysAfter(strip: string -> string, keys: seq<string>, n: nat): seq<string>
    requires n <= |keys|
  {
    PlainOnes(strip, keys[..n]) + keys[n..] + Landed(strip, keys, n)
  }

  lemma {:induction false} KeysAfterStep(strip: string -> string, keys: seq<string>, n: nat)
    requires 0 < n <= |keys|
    ensures var k, plains := keys[n - 1], PlainOnes(strip, keys[..n - 1]);
            var rest, landed := keys[n..], Landed(strip, keys, n - 1);
            && KeysAfter(strip, keys, n - 1) == plains + ([k] + rest) + landed
            && KeysAfter(strip, keys, n) ==
               if strip(k) == k then plains + [k] + rest + landed
               else if strip(k) in plains + rest + landed then plains + rest + landed
               else plains + rest + (landed + [strip(k)])
  {
    assert keys[..n][..n - 1] == keys[..n - 1] && keys[n - 1..] == [keys[n - 1]] + keys[n..];
    assert PlainOnes(strip, keys[..n - 1]) + [] == PlainOnes(strip, keys[..n - 1]);
  }

  lemma {:induction false} MovedKeys(strip: string -> string, o: Obj<WsData>, n: nat)
    requires AllValid(o) && KeysHeld(o) && n <= |o.keys|
    ensures MoveAll(strip, o, n).keys == KeysAfter(strip, o.keys, n)
  {
    if n > 0 {
      MovedKeys(strip, o, n - 1);
      MoveAllIsValid(strip, o, n - 1);
      KeysAfterStep(strip, o.keys, n);
      MovedKeysTurn(strip, MoveAll(strip, o, n - 1), o.keys[n - 1], o.vals[o.keys[n - 1]],
                    PlainOnes(strip, o.keys[..n - 1]), o.keys[n..], Landed(strip, o.keys, n - 1));
    } else {
      assert [] + o.keys[0..] + [] == o.keys;
    }
  }

  lemma {:induction false} MovedKeysTurn(strip: string -> string, o: Obj<WsData>, k: string, ws: WsData,
      plains: seq<string>, rest: seq<string>, landed: seq<string>)
    requires o.Valid() && o.keys == plains + ([k] + rest) + landed
    ensures MoveOne(strip, o, k, ws).keys ==
            if strip(k) == k then plains + [k] + rest + landed
            else if strip(k) in plains + rest + landed then plains + rest + landed
            else plains + rest + (landed + [strip(k)])
  {
    if strip(k) != k {
      assert o.keys == plains + [k] + (rest + landed) && plains + (rest + landed) == plains + rest + landed;
      Deleted(o, plains, k, rest + landed);
      Regroup(plains + rest, landed, [strip(k)]);
    } else {
      assert o.keys == plains + [k] + rest + landed;
    }
  }

  lemma {:induction false} Deleted(o: Obj<WsData>, a: seq<string>, k: string, b: seq<string>)
    requires o.Valid() && o.keys == a + [k] + b
    ensures o.Delete(k).keys == a + b && o.Delete(k).Valid()
  {
    o.DeleteIsValid(k);
    Alone(a, k, b);
    WithoutMiddle(a, k, b);
  }

  lemma {:induction false} Alone(a: seq<string>, k: string, b: seq<string>)
    requires NoRepeats(a + [k] + b)
    ensures k !in a && k !in b
  {
    var all := a + [k] + b;
    assert all[|a|] == k;
    forall i | 0 <= i < |a| ensures a[i] != k { assert all[i] == a[i]; }
    forall i | 0 <= i < |b| ensures b[i] != k { assert all[|a| + 1 + i] == b[i]; }
  }

  /** The first key at or after `i` that nothing overtakes, stripped. */
  ghost function FirstLanding(strip: string -> string, keys: seq<string>, i: nat): string
    requires i <= |keys|
    decreases |keys| - i
  {
    if i == |keys| then "" else if Overtaken(strip, keys, i) then FirstLanding(strip, keys, i + 1) else strip(keys[i])
  }

  /** The key that a store falls back on: its first plain one, else the first that lands. */
  ghost function FallbackKey(strip: string -> string, keys: seq<string>): string {
    var plains := PlainOnes(strip, keys);
    if plains != [] then plains[0] else FirstLanding(strip, keys, 0)
  }

  lemma {:induction false} NoPlainOnes(strip: string -> string, keys: seq<string>, n: nat)
    requires PlainOnes(strip, keys) == [] && n <= |keys|
    ensures PlainOnes(strip, keys[..n]) == []
    ensures forall i :: n <= i < |keys| ==> strip(keys[i]) != keys[i]
    decreases |keys|
  {
    if n < |keys| {
      assert keys[..|keys| - 1][..n] == keys[..n];
      NoPlainOnes(strip, keys[..|keys| - 1], n);
    } else {
      assert keys[..n] == keys;
    }
  }

  lemma {:induction false} LandedNone(strip: string -> string, keys: seq<string>, n: nat)
    requires n <= |keys| && forall i: nat :: i < n ==> Overtaken(strip, keys, i)
    ensures Landed(strip, keys, n) == []
  {
    if n > 0 {
      LandedNone(strip, keys, n - 1);
      assert Overtaken(strip, keys, n - 1);
      var j :| n - 1 < j < |keys| && keys[j] == strip(keys[n - 1]);
      assert keys[n..][j - n] == keys[j];
    }
  }

  lemma {:induction false} NotAhead(strip: string -> string, keys: seq<string>, m: nat)
    requires PlainOnes(strip, keys) == [] && m < |keys| && !Overtaken(strip, keys, m)
    ensures strip(keys[m]) !in keys[m + 1..]
  {
    NoPlainOnes(strip, keys, m);
    var rest := keys[m + 1..];
    forall x | x in rest ensures x != strip(keys[m]) {
      var i :| 0 <= i < |rest| && rest[i] == x;
      assert keys[m + 1 + i] == x && strip(x) != x;
    }
  }

  lemma {:induction false} LandsHere(strip: string -> string, keys: seq<string>, m: nat)
    requires m < |keys| && Landed(strip, keys, m) == [] && PlainOnes(strip, keys[..m]) == []
    requires strip(keys[m]) != keys[m] && strip(keys[m]) !in keys[m + 1..]
    ensures Landed(strip, keys, m + 1) == [strip(keys[m])]
  {
    assert [] + keys[m + 1..] + [] == keys[m + 1..];
  }

  lemma {:induction false} LandedFirst(strip: string -> string, keys: seq<string>, m: nat, n: nat)
    requires PlainOnes(strip, keys) == [] && m < n <= |keys| && !Overtaken(strip, keys, m)
    requires forall i: nat :: i < m ==> Overtaken(strip, keys, i)
    ensures Landed(strip, keys, n) != [] && Landed(strip, keys, n)[0] == strip(keys[m])
  {
    if n > m + 1 {
      LandedFirst(strip, keys, m, n - 1);
    } else {
      LandedNone(strip, keys, m);
      NoPlainOnes(strip, keys, m);
      NotAhead(strip, keys, m);
      LandsHere(strip, keys, m);
    }
  }

  lemma {:induction false} LandingIs(strip: string -> string, keys: seq<string>, i: nat)
    requires PlainOnes(strip, keys) == [] && i <= |keys| && forall j: nat :: j < i ==> Overtaken(strip, keys, j)
    ensures First(Landed(strip, keys, |keys|)) == FirstLanding(strip, keys, i)
    decreases |keys| - i
  {
    if i == |keys| {
      LandedNone(strip, keys, i);
    } else if Overtaken(strip, keys, i) {
      LandingIs(strip, keys, i + 1);
    } else {
      LandedFirst(strip, keys, i, |keys|);
    }
  }

  /** It is the first key afterwards. */
  lemma {:induction false} FallbackIsFirst(s: Store)
    requires s.Valid()
    ensures First(Moved(s).keys) == FallbackKey(StripExtPrefix, s.workspaces.keys)
  {
    var o := s.workspaces;
    var n := |o.keys|;
    MovedKeys(StripExtPrefix, o, n);
    assert o.keys[..n] == o.keys && o.keys[n..] == [];
    if PlainOnes(StripExtPrefix, o.keys) == [] {
      LandingIs(StripExtPrefix, o.keys, 0);
      assert [] + [] + Landed(StripExtPrefix, o.keys, n) == Landed(StripExtPrefix, o.keys, n);
    }
  }

  // ----- the workspace there

  /** One arrival is there as it was, several are merged, hence settled. */
  ghost predicate Lands(o: Obj<WsData>, who: seq<nat>, there: Option<WsData>)
    requires KeysHeld(o) && Within(who, |o.keys|)
  {
    && (there.Some? <==> who != [])
    && (|who| == 1 ==> there == Some(o.vals[o.keys[who[0]]]))
    && (|who| >= 2 ==> Settled(there.value))
  }

  function At(o: Obj<WsData>, p: string): Option<WsData> {
    if p in o.vals then Some(o.vals[p]) else None
  }

  lemma {:induction false} MoveOneAt(strip: string -> string, o: Obj<WsData>, key: string, ws: WsData, p: string)
    ensures At(MoveOne(strip, o, key, ws), p) ==
            if strip(key) == key then At(o, p)
            else if p == key then None
            else if p == strip(key) then Some(match At(o, p) case None => ws case Some(twin) => Merged(twin, ws))
            else At(o, p)
  {
  }

  lemma {:induction false} LandsMore(o: Obj<WsData>, who: seq<nat>, there: Option<WsData>, i: nat)
    requires KeysHeld(o) && Within(who, |o.keys|) && i < |o.keys| && Lands(o, who, there)
    requires (there.Some? ==> Sound(there.value)) && Sound(o.vals[o.keys[i]])
    ensures var ws := o.vals[o.keys[i]];
            Lands(o, who + [i], Some(match there case None => ws case Some(twin) => Merged(twin, ws)))
  {
    if there.Some? { MergedIsSound(there.value, o.vals[o.keys[i]]); }
  }

  lemma {:induction false} StartLands(o: Obj<WsData>, p: string)
    requires o.Valid() && KeysHeld(o)
    ensures Lands(o, Position(o.keys, p), At(o, p))
  {
    if p in o.vals { assert p in o.keys; }
  }

  lemma {:induction false} MoveLands(strip: string -> string, o: Obj<WsData>, p: string, n: nat, before: Obj<WsData>)
    requires KeysHeld(o) && EachSound(o) && EachSound(before) && n < |o.keys|
    requires Lands(o, Arrivals(strip, o.keys, p, n), At(before, p))
    ensures Lands(o, Arrivals(strip, o.keys, p, n + 1), At(MoveOne(strip, before, o.keys[n], o.vals[o.keys[n]]), p))
  {
    var key := o.keys[n];
    MoveOneAt(strip, before, key, o.vals[key], p);
    if strip(key) != key && key != p && strip(key) == p {
      LandsMore(o, Arrivals(strip, o.keys, p, n), At(before, p), n);
    }
  }

  ghost predicate LandsAfter(strip: string -> string, o: Obj<WsData>, p: string, n: nat, after: Obj<WsData>)
    requires KeysHeld(o) && n <= |o.keys|
  {
    EachSound(after) && Lands(o, Arrivals(strip, o.keys, p, n), At(after, p))
  }

  lemma {:induction false} LandsNext(strip: string -> string, o: Obj<WsData>, p: string, n: nat, before: Obj<WsData>)
    requires KeysHeld(o) && EachSound(o) && 0 < n <= |o.keys| && LandsAfter(strip, o, p, n - 1, before)
    ensures LandsAfter(strip, o, p, n, MoveOne(strip, before, o.keys[n - 1], o.vals[o.keys[n - 1]]))
  {
    MoveLands(strip, o, p, n - 1, before);
    MoveOneIsSound(strip, before, o.keys[n - 1], o.vals[o.keys[n - 1]]);
  }

  lemma {:induction false} MovedLands(strip: string -> string, o: Obj<WsData>, p: string, n: nat, after: Obj<WsData>)
    requires KeysHeld(o) && EachSound(o) && n <= |o.keys| && Lands(o, Position(o.keys, p), At(o, p))
    requires after == MoveAll(strip, o, n)
    ensures LandsAfter(strip, o, p, n, after)
  {
    if n > 0 {
      var before := MoveAll(strip, o, n - 1);
      MovedLands(strip, o, p, n - 1, before);
      LandsNext(strip, o, p, n, before);
    }
  }

  ghost predicate ReachedBySeveral(s: Store, p: string) {
    exists i: nat, j: nat ::
      i < j && EndsAt(StripExtPrefix, s.workspaces.keys, i, p) && EndsAt(StripExtPrefix, s.workspaces.keys, j, p)
  }

  ghost predicate ReachedByOne(s: Store, p: string, good: WsData -> bool)
    requires s.Valid()
  {
    exists i: nat :: EndsAt(StripExtPrefix, s.workspaces.keys, i, p) && good(s.workspaces.vals[s.workspaces.keys[i]])
  }

  /** The workspace the store falls back on is merged from several, or is a good one. */
  ghost predicate FallsWell(s: Store, good: WsData -> bool)
    requires s.Valid()
  {
    var p := FallbackKey(StripExtPrefix, s.workspaces.keys);
    p == "" || ReachedBySeveral(s, p) || ReachedByOne(s, p, good)
  }

  /** The workspace that the store points at is there afterwards. */
  ghost predicate Named(s: Store) {
    StripExtPrefix(s.activeWs) != "" &&
      exists i: nat :: EndsAt(StripExtPrefix, s.workspaces.keys, i, StripExtPrefix(s.activeWs))
  }

  lemma {:induction false} SeveralArrivals(strip: string -> string, keys: seq<string>, p: string)
    requires NoRepeats(keys)
    ensures |Arrivals(strip, keys, p, |keys|)| >= 2 <==>
            exists i: nat, j: nat :: i < j && EndsAt(strip, keys, i, p) && EndsAt(strip, keys, j, p)
  {
    var who := Arrivals(strip, keys, p, |keys|);
    FinalArrivals(strip, keys, p);
    ArrivalsInOrder(strip, keys, p, |keys|);
    if |who| >= 2 {
      var i, j := who[0], who[1];
      assert i in who && j in who && i != j;
      assert i < j || j < i;
    }
    if i: nat, j: nat :| i < j && EndsAt(strip, keys, i, p) && EndsAt(strip, keys, j, p) {
      assert i in who && j in who;
    }
  }

  lemma {:induction false} KeysAfterwards(s: Store, p: string)
    requires s.Valid()
    ensures AllValid(Moved(s))
    ensures p in Moved(s).vals <==> exists i: nat :: EndsAt(StripExtPrefix, s.workspaces.keys, i, p)
  {
    SameKeys(s);
    WhereConversationsEnd(s, p, "");
    assert p in Normalized(s).workspaces.vals.Keys <==> p in Moved(s).vals.Keys;
  }

  /** The fallback workspace afterwards is good exactly if `FallsWell` says so of the store before. */
  lemma {:induction false} FallbackIsGoodIff(s: Store, good: WsData -> bool)
    requires s.Valid() && EachSound(s.workspaces)
    requires forall w: WsData :: Settled(w) ==> good(w)
    ensures AllValid(Moved(s))
    ensures FallsWell(s, good) <==> First(Moved(s).keys) == "" || good(Moved(s).vals[First(Moved(s).keys)])
  {
    var o := s.workspaces;
    var n, p := |o.keys|, FallbackKey(StripExtPrefix, o.keys);
    MoveAllIsValid(StripExtPrefix, o, n);
    FallbackIsFirst(s);
    StartLands(o, p);
    MovedLands(StripExtPrefix, o, p, n, MoveAll(StripExtPrefix, o, n));
    SeveralArrivals(StripExtPrefix, o.keys, p);
    FinalArrivals(StripExtPrefix, o.keys, p);
    if p != "" {
      assert Moved(s).keys[0] in Moved(s).keys;
      var who := Arrivals(StripExtPrefix, o.keys, p, n);
      assert who[0] in who;
      if |who| == 1 {
        assert forall i: nat :: EndsAt(StripExtPrefix, o.keys, i, p) <==> i == who[0];
      }
    }
  }

  lemma {:induction false} NamedIffKnown(s: Store)
    requires s.Valid()
    ensures Named(s) <==> Known(Moved(s), StripExtPrefix(s.activeWs))
  {
    KeysAfterwards(s, StripExtPrefix(s.activeWs));
  }

  /** Orders stay duplicate-free enumerations, and the active pointers name entries exactly when the
      workspace pointed at survives, or the fallback one points at no conversation it lacks. */
  lemma {:induction false} PointersNameEntriesIff(s: Store)
    requires s.Valid() && AllSound(s.workspaces)
    ensures AllSound(Normalized(s).workspaces)
    ensures PointsWell(Normalized(s)) <==> Named(s) || FallsWell(s, Harmless)
  {
    PointersInMoved(s);
    NamedIffKnown(s);
    FallbackIsGoodIff(s, Harmless);
  }

  /** No workspace ends under a prefixed key. */
  ghost predicate AllStripped(keys: seq<string>) {
    forall i: nat :: i < |keys| && !Overtaken(StripExtPrefix, keys, i) ==> !Prefixed(StripExtPrefix(keys[i]))
  }

  lemma {:induction false} AllStrippedIff(s: Store)
    requires s.Valid()
    ensures AllValid(Moved(s))
    ensures AllStripped(s.workspaces.keys) <==> forall p :: p in Moved(s).vals ==> !Prefixed(p)
  {
    var keys := s.workspaces.keys;
    MoveAllIsValid(StripExtPrefix, s.workspaces, |keys|);
    if AllStripped(keys) {
      forall p | p in Moved(s).vals ensures !Prefixed(p) { KeysAfterwards(s, p); }
    }
    if forall p :: p in Moved(s).vals ==> !Prefixed(p) {
      forall i: nat | i < |keys| && !Overtaken(StripExtPrefix, keys, i) ensures !Prefixed(StripExtPrefix(keys[i])) {
        assert EndsAt(StripExtPrefix, keys, i, StripExtPrefix(keys[i]));
        KeysAfterwards(s, StripExtPrefix(keys[i]));
      }
    }
  }

  /** A second pass changes nothing exactly when no workspace ends under a prefixed key, and the one
      pointed at survives or the fallback one is settled. */
  lemma {:induction false} SecondPassIff(s: Store)
    requires s.Valid() && AllSound(s.workspaces)
    ensures Normalized(s).Valid()
    ensures Normalized(Normalized(s)) == Normalized(s) <==>
            AllStripped(s.workspaces.keys) && (Named(s) || FallsWell(s, Settled))
  {
    SecondPassInMoved(s);
    AllStrippedIff(s);
    NamedIffKnown(s);
    FallbackIsGoodIff(s, Settled);
  }

  /** A store with one workspace `a` and one conversation `x`, pointing at another workspace. */
  function Astray(activeConv: Option<string>): Store {
    Store("gone", "x", Obj(["a"], map["a" := WsData(false, Obj(["x"], map["x" := ""]), ["x"], activeConv, None)]))
  }

  lemma {:induction false} AstrayIsSound(activeConv: Option<string>)
    ensures var s := Astray(activeConv);
            && s.Valid() && AllSound(s.workspaces)
            && !Named(s) && FallbackKey(StripExtPrefix, s.workspaces.keys) == "a" && !ReachedBySeveral(s, "a")
  {
    var s := Astray(activeConv);
    assert "a"[0] == 'a' && "gone"[0] == 'g';
    assert !Prefixed("a") && !Prefixed("gone");
    assert ["a"][..0] == [] && PlainOnes(StripExtPrefix, ["a"]) == [] + ["a"];
  }

  /** If the workspace never had an active conversation, a second pass sets one. */
  lemma {:induction false} ASecondPassCanChange()
    ensures Astray(None).Valid() && Normalized(Astray(None)).Valid()
    ensures Normalized(Normalized(Astray(None))) != Normalized(Astray(None))
  {
    AstrayIsSound(None);
    SecondPassIff(Astray(None));
  }

  /** If it points at a conversation it does not have, so does the store afterwards. */
  lemma {:induction false} PointersCanDangle()
    ensures Astray(Some("missing")).Valid() && !PointsWell(Normalized(Astray(Some("missing"))))
  {
    AstrayIsSound(Some("missing"));
    assert "missing"[0] != "x"[0];
    PointersNameEntriesIff(Astray(Some("missing")));
  }
}
