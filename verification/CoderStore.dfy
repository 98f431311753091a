/** Loading the coder's conversation store: workspaces saved under a Windows extended-length path are
    merged into their plain spelling, and the active workspace and conversation are found again. */
module CoderStore {
  import opened Text

  // ----- objects with ordered keys

  predicate NoRepeats(xs: seq<string>) {
    forall i, j :: 0 <= i < j < |xs| ==> xs[i] != xs[j]
  }

  function Without(xs: seq<string>, x: string): seq<string> {
    if xs == [] then [] else Without(xs[..|xs| - 1], x) + if xs[|xs| - 1] == x then [] else [xs[|xs| - 1]]
  }

  lemma {:induction false} WithoutHas(xs: seq<string>, x: string)
    ensures forall y :: y in Without(xs, x) <==> y in xs && y != x
    ensures NoRepeats(xs) ==> NoRepeats(Without(xs, x))
  {
    if xs != [] {
      var m := |xs| - 1;
      WithoutHas(xs[..m], x);
      assert xs == xs[..m] + [xs[m]];
      if NoRepeats(xs) {
        assert xs[m] !in Without(xs[..m], x);
        NoRepeatsConcat(Without(xs[..m], x), if xs[m] == x then [] else [xs[m]]);
      }
    }
  }

  lemma {:induction false} NoRepeatsConcat(xs: seq<string>, ys: seq<string>)
    requires NoRepeats(xs) && NoRepeats(ys) && forall y :: y in ys ==> y !in xs
    ensures NoRepeats(xs + ys)
  {
    forall i, j | 0 <= i < j < |xs + ys| ensures (xs + ys)[i] != (xs + ys)[j] {
      if i < |xs| <= j { assert ys[j - |xs|] in ys && xs[i] in xs; }
    }
  }

  /** A JavaScript object read as a record: keys in insertion order. */
  datatype Obj<V> = Obj(keys: seq<string>, vals: map<string, V>) {
    ghost predicate Valid() {
      NoRepeats(keys) && forall k :: k in keys <==> k in vals
    }

    /** Assignment: a known key keeps its place. */
    function Put(k: string, v: V): Obj<V> {
      Obj(if k in vals then keys else keys + [k], vals[k := v])
    }

    function Delete(k: string): Obj<V> {
      Obj(Without(keys, k), vals - {k})
    }

    lemma {:induction false} PutIsValid(k: string, v: V)
      requires Valid()
      ensures Put(k, v).Valid()
    {
    }

    lemma {:induction false} DeleteIsValid(k: string)
      requires Valid()
      ensures Delete(k).Valid()
    {
      WithoutHas(keys, k);
    }
  }

  type Conv = string

  datatype WsData = WsData(expanded: bool, conversations: Obj<Conv>, order: seq<string>, activeConv: Option<string>,
      perms: Option<string>)

  datatype Store = Store(activeWs: string, activeConv: string, workspaces: Obj<WsData>) {
    ghost predicate Valid() {
      AllValid(workspaces)
    }
  }

  ghost predicate AllValid(o: Obj<WsData>) {
    o.Valid() && EachValid(o)
  }

  // ----- the extended-length prefix

  predicate Prefixed(p: string) {
    "\\\\?\\" <= p || "\\\\?/" <= p || "//?/" <= p
  }

  predicate IsShare(rest: string) {
    "UNC\\" <= rest || "UNC/" <= rest
  }

  function Backslashed(s: string): (r: string)
    ensures |r| == |s|
  {
    if s == [] then [] else [if s[0] == '/' then '\\' else s[0]] + Backslashed(s[1..])
  }

  /** The plain spelling; of a network path, the one with two leading backslashes. */
  function StripExtPrefix(p: string): (plain: string)
    ensures Prefixed(p) ==> |plain| < |p|
    ensures plain != p <==> Prefixed(p)
  {
    if !Prefixed(p) then p
    else
      var rest := p[4..];
      if IsShare(rest) then "\\\\" + Backslashed(rest[4..]) else rest
  }

  lemma {:induction false} BackslashedAt(s: string, i: nat)
    requires i < |s|
    ensures Backslashed(s)[i] == if s[i] == '/' then '\\' else s[i]
  {
    if i > 0 { BackslashedAt(s[1..], i - 1); }
  }

  /** A path put behind any of the prefixes comes back, and one that begins with `UNC` and a separator as a network
      share in its own spelling. */
  lemma {:induction false} StrippingUndoesPrefixing(prefix: string, rest: string)
    requires prefix == "\\\\?\\" || prefix == "\\\\?/" || prefix == "//?/"
    ensures !("UNC\\" <= rest) && !("UNC/" <= rest) ==> StripExtPrefix(prefix + rest) == rest
    ensures "UNC\\" <= rest || "UNC/" <= rest ==>
              var plain := StripExtPrefix(prefix + rest);
              && |plain| == |rest| - 2 && plain[..2] == "\\\\"
              && forall i :: 4 <= i < |rest| ==> plain[i - 2] == if rest[i] == '/' then '\\' else rest[i]
  {
    assert |prefix| == 4 && prefix <= prefix + rest;
    assert (prefix + rest)[4..] == rest;
    if IsShare(rest) {
      forall i | 4 <= i < |rest|
        ensures Backslashed(rest[4..])[i - 4] == if rest[i] == '/' then '\\' else rest[i]
      {
        BackslashedAt(rest[4..], i - 4);
      }
    }
  }

  // ----- merging two workspaces

  function First(xs: seq<string>): string {
    if xs == [] then "" else xs[0]
  }

  predicate Names(conv: Option<string>, conversations: Obj<Conv>) {
    conv.Some? && conv.value != "" && conv.value in conversations.vals
  }

  function Missing(keys: seq<string>, have: map<string, Conv>): seq<string> {
    if keys == [] then []
    else Missing(keys[..|keys| - 1], have) + if keys[|keys| - 1] in have then [] else [keys[|keys| - 1]]
  }

  /** The twin's conversations win, the others follow in their order. */
  function Merged(twin: WsData, ws: WsData): WsData {
    var more := Missing(ws.conversations.keys, twin.conversations.vals);
    var conversations := Obj(twin.conversations.keys + more, ws.conversations.vals + twin.conversations.vals);
    WithConversations(twin, ws, conversations, twin.order + more)
  }

  function WithConversations(twin: WsData, ws: WsData, conversations: Obj<Conv>, order: seq<string>): WsData {
    var active := if Names(twin.activeConv, conversations) then twin.activeConv.value else First(order);
    WsData(twin.expanded || ws.expanded, conversations, order, Some(active), twin.perms)
  }

  function Restricted(vals: map<string, Conv>, keys: seq<string>): map<string, Conv> {
    map k | k in keys && k in vals :: vals[k]
  }

  /** One conversation more. */
  lemma {:induction false} MergeStep(keys: seq<string>, i: nat, vals: map<string, Conv>, have: map<string, Conv>)
    requires i < |keys| && NoRepeats(keys) && keys[i] in vals
    ensures Missing(keys[..i + 1], have) == Missing(keys[..i], have) + if keys[i] in have then [] else [keys[i]]
    ensures keys[i] in Restricted(vals, keys[..i]) + have <==> keys[i] in have
    ensures Restricted(vals, keys[..i + 1]) + have ==
            if keys[i] in have then Restricted(vals, keys[..i]) + have
            else (Restricted(vals, keys[..i]) + have)[keys[i] := vals[keys[i]]]
  {
    assert keys[..i + 1] == keys[..i] + [keys[i]] && keys[..i + 1][..i] == keys[..i];
    assert keys[i] !in keys[..i];
    RestrictedGrows(vals, keys[..i], keys[i]);
    UpdateUnder(Restricted(vals, keys[..i]), have, keys[i], vals[keys[i]]);
  }

  lemma {:induction false} RestrictedGrows(vals: map<string, Conv>, keys: seq<string>, k: string)
    requires k in vals
    ensures Restricted(vals, keys + [k]) == Restricted(vals, keys)[k := vals[k]]
  {
  }

  lemma {:induction false} UpdateUnder(vals: map<string, Conv>, have: map<string, Conv>, k: string, v: Conv)
    ensures vals[k := v] + have == if k in have then vals + have else (vals + have)[k := v]
  {
  }

  lemma {:induction false} MergeEnds(keys: seq<string>, vals: map<string, Conv>)
    requires forall k :: k in keys <==> k in vals
    ensures keys[..|keys|] == keys && Restricted(vals, keys) == vals
  {
  }

  /** The first `i` conversations are in. */
  ghost predicate MergedSoFar(twin: WsData, ws: WsData, i: nat, conversations: Obj<Conv>, order: seq<string>) {
    && i <= |ws.conversations.keys|
    && var more := Missing(ws.conversations.keys[..i], twin.conversations.vals);
       && conversations.keys == twin.conversations.keys + more && order == twin.order + more
       && conversations.vals == Restricted(ws.conversations.vals, ws.conversations.keys[..i]) + twin.conversations.vals
  }

  lemma {:induction false} MergeOne(twin: WsData, ws: WsData, i: nat, conversations: Obj<Conv>, order: seq<string>)
    requires ws.conversations.Valid() && i < |ws.conversations.keys| && MergedSoFar(twin, ws, i, conversations, order)
    ensures var cid := ws.conversations.keys[i];
            && cid in ws.conversations.vals
            && if cid in conversations.vals then MergedSoFar(twin, ws, i + 1, conversations, order)
               else MergedSoFar(twin, ws, i + 1, conversations.Put(cid, ws.conversations.vals[cid]), order + [cid])
  {
    var cids, have := ws.conversations.keys, twin.conversations.vals;
    MergeStep(cids, i, ws.conversations.vals, have);
    Regroup(twin.order, Missing(cids[..i], have), [cids[i]]);
    Regroup(twin.conversations.keys, Missing(cids[..i], have), [cids[i]]);
  }

  method Merge(twin: WsData, ws: WsData) returns (merged: WsData)
    requires twin.conversations.Valid() && ws.conversations.Valid()
    ensures merged == Merged(twin, ws)
  {
    var conversations, order := twin.conversations, twin.order;
    var cids := ws.conversations.keys;
    assert Restricted(ws.conversations.vals, []) + conversations.vals == conversations.vals;
    for i := 0 to |cids|
      invariant MergedSoFar(twin, ws, i, conversations, order)
    {
      var cid := cids[i];
      MergeOne(twin, ws, i, conversations, order);
      if cid !in conversations.vals {
        conversations := conversations.Put(cid, ws.conversations.vals[cid]);
        order := order + [cid];
      }
    }
    MergeEnds(cids, ws.conversations.vals);
    merged := WithConversations(twin, ws, conversations, order);
  }

  // ----- the migration pass

  // How keys are stripped plays no part in the pass itself, so `strip` is a parameter of it.

  /** One turn of the loop: the entry as it was when the loop began goes to its plain key. */
  function MoveOne(strip: string -> string, o: Obj<WsData>, key: string, ws: WsData): Obj<WsData> {
    var plain := strip(key);
    if plain == key then o
    else
      var rest := o.Delete(key);
      rest.Put(plain, if plain in rest.vals then Merged(rest.vals[plain], ws) else ws)
  }

  /** Every key has a value. */
  ghost predicate KeysHeld(o: Obj<WsData>) {
    forall i :: 0 <= i < |o.keys| ==> o.keys[i] in o.vals
  }

  function MoveAll(strip: string -> string, o: Obj<WsData>, n: nat): Obj<WsData>
    requires KeysHeld(o) && n <= |o.keys|
  {
    if n == 0 then o else MoveOne(strip, MoveAll(strip, o, n - 1), o.keys[n - 1], o.vals[o.keys[n - 1]])
  }

  predicate Known(o: Obj<WsData>, ws: string) {
    ws != "" && ws in o.vals
  }

  /** The active workspace and conversation. */
  function Point(o: Obj<WsData>, activeWs: string, activeConv: string): Store
    requires o.Valid()
  {
    if Known(o, activeWs) then
      var wsd := o.vals[activeWs];
      var candidate := if activeConv != "" then Some(activeConv) else wsd.activeConv;
      var conv := if Names(candidate, wsd.conversations) then candidate.value
                  else if Names(wsd.activeConv, wsd.conversations) then wsd.activeConv.value
                  else First(wsd.order);
      Store(activeWs, conv, o.Put(activeWs, wsd.(activeConv := Some(conv))))
    else
      var first := First(o.keys);
      Store(first, if first == "" then "" else Or(o.vals[first].activeConv, First(o.vals[first].order)), o)
  }

  function Normalized(s: Store): Store
    requires s.Valid()
  {
    MoveAllIsValid(StripExtPrefix, s.workspaces, |s.workspaces.keys|);
    Point(MoveAll(StripExtPrefix, s.workspaces, |s.workspaces.keys|), StripExtPrefix(s.activeWs), s.activeConv)
  }

  lemma {:induction false} MissingHas(keys: seq<string>, have: map<string, Conv>)
    ensures forall c :: c in Missing(keys, have) <==> c in keys && c !in have
    ensures NoRepeats(keys) ==> NoRepeats(Missing(keys, have))
  {
    if keys != [] {
      var m := |keys| - 1;
      MissingHas(keys[..m], have);
      assert keys == keys[..m] + [keys[m]];
    }
  }

  lemma {:induction false} MergedIsValid(twin: WsData, ws: WsData)
    requires twin.conversations.Valid() && ws.conversations.Valid()
    ensures Merged(twin, ws).conversations.Valid()
  {
    MissingHas(ws.conversations.keys, twin.conversations.vals);
    NoRepeatsConcat(twin.conversations.keys, Missing(ws.conversations.keys, twin.conversations.vals));
  }

  ghost predicate EachValid(o: Obj<WsData>) {
    forall p :: p in o.vals ==> o.vals[p].conversations.Valid()
  }

  lemma {:induction false} MoveOneEachValid(strip: string -> string, o: Obj<WsData>, key: string, ws: WsData)
    requires EachValid(o) && ws.conversations.Valid()
    ensures EachValid(MoveOne(strip, o, key, ws))
  {
    var plain := strip(key);
    if plain != key && plain in o.vals { MergedIsValid(o.vals[plain], ws); }
  }

  lemma {:induction false} MoveOneKeys(strip: string -> string, o: Obj<WsData>, key: string, ws: WsData)
    requires o.Valid()
    ensures MoveOne(strip, o, key, ws).Valid()
  {
    var rest, plain := o.Delete(key), strip(key);
    o.DeleteIsValid(key);
    rest.PutIsValid(plain, if plain in rest.vals then Merged(rest.vals[plain], ws) else ws);
  }

  lemma {:induction false} MoveAllIsValid(strip: string -> string, o: Obj<WsData>, n: nat)
    requires AllValid(o) && KeysHeld(o) && n <= |o.keys|
    ensures AllValid(MoveAll(strip, o, n))
  {
    if n > 0 {
      MoveAllIsValid(strip, o, n - 1);
      MoveOneEachValid(strip, MoveAll(strip, o, n - 1), o.keys[n - 1], o.vals[o.keys[n - 1]]);
      MoveOneKeys(strip, MoveAll(strip, o, n - 1), o.keys[n - 1], o.vals[o.keys[n - 1]]);
    }
  }

  method NormalizeStore(s: Store) returns (r: Store)
    requires s.Valid()
    ensures r == Normalized(s)
  {
    var entries := s.workspaces;
    var workspaces := s.workspaces;
    for i := 0 to |entries.keys|
      invariant EachValid(workspaces) && workspaces == MoveAll(StripExtPrefix, entries, i)
    {
      var key := entries.keys[i];
      var ws := entries.vals[key];
      MoveOneEachValid(StripExtPrefix, workspaces, key, ws);
      workspaces := MoveEntry(workspaces, key, ws);
    }
    MoveAllIsValid(StripExtPrefix, entries, |entries.keys|);
    r := PointStore(workspaces, StripExtPrefix(s.activeWs), s.activeConv);
  }

  method MoveEntry(before: Obj<WsData>, key: string, ws: WsData) returns (workspaces: Obj<WsData>)
    requires EachValid(before) && ws.conversations.Valid()
    ensures workspaces == MoveOne(StripExtPrefix, before, key, ws)
  {
    workspaces := before;
    var plain := StripExtPrefix(key);
    if plain == key {
      return;
    }
    workspaces := workspaces.Delete(key);
    if plain !in workspaces.vals {
      workspaces := workspaces.Put(plain, ws);
    } else {
      var merged := Merge(workspaces.vals[plain], ws);
      workspaces := workspaces.Put(plain, merged);
    }
  }

  method PointStore(before: Obj<WsData>, pointedWs: string, pointedConv: string) returns (r: Store)
    requires before.Valid()
    ensures r == Point(before, pointedWs, pointedConv)
  {
    var workspaces, activeWs, activeConv := before, pointedWs, pointedConv;
    if activeWs == "" || activeWs !in workspaces.vals {
      activeWs := First(workspaces.keys);
      activeConv :=
        if activeWs == "" then ""
        else Or(workspaces.vals[activeWs].activeConv, First(workspaces.vals[activeWs].order));
    } else {
      var wsd := workspaces.vals[activeWs];
      var candidate := if activeConv != "" then Some(activeConv) else wsd.activeConv;
      activeConv := if Names(candidate, wsd.conversations) then candidate.value
                    else if Names(wsd.activeConv, wsd.conversations) then wsd.activeConv.value
                    else First(wsd.order);
      workspaces := workspaces.Put(activeWs, wsd.(activeConv := Some(activeConv)));
    }
    r := Store(activeWs, activeConv, workspaces);
  }

  // ----- which workspaces meet at a key

  /** A later key is the stripped form of this one and is itself stripped: what was merged into it is
      deleted with it. */
  ghost predicate Overtaken(strip: string -> string, keys: seq<string>, i: nat)
    requires i < |keys|
  {
    OvertakenBy(strip, keys, i, |keys|)
  }

  ghost predicate OvertakenBy(strip: string -> string, keys: seq<string>, i: nat, n: nat)
    requires i < |keys| && n <= |keys|
  {
    strip(strip(keys[i])) != strip(keys[i]) && exists j :: i < j < n && keys[j] == strip(keys[i])
  }

  /** After `n` turns, the entries whose conversations are under `p`, in the order they came. */
  function Arrivals(strip: string -> string, keys: seq<string>, p: string, n: nat): (who: seq<nat>)
    requires n <= |keys|
    ensures Within(who, |keys|)
  {
    if n == 0 then Position(keys, p)
    else
      var k, before := keys[n - 1], Arrivals(strip, keys, p, n - 1);
      if strip(k) == k then before
      else if k == p then []
      else if strip(k) == p then before + [n - 1]
      else before
  }

  predicate Within(who: seq<nat>, n: nat) {
    forall a :: 0 <= a < |who| ==> who[a] < n
  }

  function Position(keys: seq<string>, p: string): (who: seq<nat>)
    ensures |who| <= 1 && (who != [] ==> who[0] < |keys| && keys[who[0]] == p)
    ensures p in keys ==> who != []
  {
    if keys == [] then []
    else if keys[|keys| - 1] == p then [|keys| - 1]
    else Position(keys[..|keys| - 1], p)
  }

  ghost predicate Comes(strip: string -> string, keys: seq<string>, p: string, i: nat, n: nat)
    requires n <= |keys|
  {
    && i < |keys|
    && if strip(keys[i]) == keys[i] || i >= n then keys[i] == p
       else strip(keys[i]) == p && !OvertakenBy(strip, keys, i, n)
  }

  lemma {:induction false} OvertakenStep(strip: string -> string, keys: seq<string>, i: nat, n: nat)
    requires 0 < n <= |keys| && i < |keys|
    ensures OvertakenBy(strip, keys, i, n) <==>
            OvertakenBy(strip, keys, i, n - 1) ||
              (i < n - 1 && strip(keys[n - 1]) != keys[n - 1] && keys[n - 1] == strip(keys[i]))
  {
  }

  lemma {:induction false} ArrivalsAre(strip: string -> string, keys: seq<string>, p: string, n: nat, i: nat)
    requires NoRepeats(keys) && n <= |keys|
    ensures i in Arrivals(strip, keys, p, n) <==> Comes(strip, keys, p, i, n)
  {
    if n == 0 {
      if i < |keys| && keys[i] == p { assert Position(keys, p)[0] in Position(keys, p); }
    } else {
      ArrivalsAre(strip, keys, p, n - 1, i);
      if i < |keys| { OvertakenStep(strip, keys, i, n); }
      ArrivalsStep(strip, keys, p, n, i);
    }
  }

  lemma {:induction false} ArrivalsStep(strip: string -> string, keys: seq<string>, p: string, n: nat, i: nat)
    requires 0 < n <= |keys|
    ensures var k := keys[n - 1];
            i in Arrivals(strip, keys, p, n) <==>
            (i in Arrivals(strip, keys, p, n - 1) && !(strip(k) != k && k == p)) ||
              (i == n - 1 && strip(k) != k && strip(k) == p)
  {
  }

  /** The workspace that was there comes first, the spellings follow in the order of the store. */
  lemma {:induction false} ArrivalsInOrder(strip: string -> string, keys: seq<string>, p: string, n: nat)
    requires NoRepeats(keys) && n <= |keys|
    ensures InOrder(keys, p, n, Arrivals(strip, keys, p, n))
  {
    if n > 0 {
      ArrivalsInOrder(strip, keys, p, n - 1);
      LaterArrival(keys, p, n, Arrivals(strip, keys, p, n - 1));
    }
  }

  lemma {:induction false} LaterArrival(keys: seq<string>, p: string, n: nat, who: seq<nat>)
    requires 0 < n <= |keys| && Within(who, |keys|) && InOrder(keys, p, n - 1, who)
    ensures InOrder(keys, p, n, who)
    ensures keys[n - 1] != p ==> Within(who + [n - 1], |keys|) && InOrder(keys, p, n, who + [n - 1])
  {
  }

  ghost predicate InOrder(keys: seq<string>, p: string, n: nat, who: seq<nat>)
    requires Within(who, |keys|)
  {
    && (forall a :: 0 <= a < |who| && keys[who[a]] != p ==> who[a] < n)
    && (forall b :: 0 < b < |who| ==> keys[who[b]] != p)
    && (forall a, b :: 0 <= a < b < |who| ==> keys[who[a]] == p || who[a] < who[b])
  }

  /** Conversations of several workspaces, the first holder's wins. */
  function FirstWins(o: Obj<WsData>, who: seq<nat>): map<string, Conv>
    requires KeysHeld(o) && Within(who, |o.keys|)
  {
    if who == [] then map[] else Held(o, who[|who| - 1]) + FirstWins(o, who[..|who| - 1])
  }

  function Held(o: Obj<WsData>, i: nat): map<string, Conv>
    requires KeysHeld(o) && i < |o.keys|
  {
    o.vals[o.keys[i]].conversations.vals
  }

  /** The conversations under a key. */
  function Content(o: Obj<WsData>, p: string): Option<map<string, Conv>> {
    if p in o.vals then Some(o.vals[p].conversations.vals) else None
  }

  function Gathered(o: Obj<WsData>, who: seq<nat>): Option<map<string, Conv>>
    requires KeysHeld(o) && Within(who, |o.keys|)
  {
    if who == [] then None else Some(FirstWins(o, who))
  }

  lemma {:induction false} MoveOneHolds(strip: string -> string, o: Obj<WsData>, key: string, ws: WsData, p: string)
    ensures Content(MoveOne(strip, o, key, ws), p) ==
            if strip(key) == key then Content(o, p)
            else if p == key then None
            else if p == strip(key) then Some(ws.conversations.vals + Or(Content(o, p), map[]))
            else Content(o, p)
  {
    assert ws.conversations.vals + map[] == ws.conversations.vals;
  }

  lemma {:induction false} GatherOne(o: Obj<WsData>, who: seq<nat>, i: nat)
    requires KeysHeld(o) && Within(who, |o.keys|) && i < |o.keys|
    ensures Gathered(o, who + [i]) == Some(Held(o, i) + Or(Gathered(o, who), map[]))
  {
    assert (who + [i])[..|who|] == who;
  }

  lemma {:induction false} StartHolds(strip: string -> string, o: Obj<WsData>, p: string)
    requires o.Valid() && KeysHeld(o)
    ensures Content(o, p) == Gathered(o, Arrivals(strip, o.keys, p, 0))
  {
    var who := Position(o.keys, p);
    if who != [] {
      assert who == [who[0]];
      GatherSingle(o, who[0]);
    }
  }

  lemma {:induction false} GatherSingle(o: Obj<WsData>, i: nat)
    requires KeysHeld(o) && i < |o.keys|
    ensures Gathered(o, [i]) == Some(Held(o, i))
  {
    var who: seq<nat> := [i];
    assert who[..|who| - 1] == [] && FirstWins(o, []) == map[];
    assert FirstWins(o, who) == Held(o, i) + map[];
    assert Held(o, i) + map[] == Held(o, i);
  }

  /** What is under a key after `n` turns, turn by turn. */
  ghost function ContentAfter(strip: string -> string, o: Obj<WsData>, p: string, n: nat): Option<map<string, Conv>>
    requires KeysHeld(o) && n <= |o.keys|
  {
    if n == 0 then Content(o, p)
    else
      var before, key := ContentAfter(strip, o, p, n - 1), o.keys[n - 1];
      if strip(key) == key then before
      else if key == p then None
      else if strip(key) == p then Some(Held(o, n - 1) + Or(before, map[]))
      else before
  }

  lemma {:induction false} MovedContent(strip: string -> string, o: Obj<WsData>, p: string, n: nat)
    requires KeysHeld(o) && n <= |o.keys|
    ensures Content(MoveAll(strip, o, n), p) == ContentAfter(strip, o, p, n)
  {
    if n > 0 {
      MovedContent(strip, o, p, n - 1);
      MoveOneHolds(strip, MoveAll(strip, o, n - 1), o.keys[n - 1], o.vals[o.keys[n - 1]], p);
    }
  }

  lemma {:induction false} GatheredContent(strip: string -> string, o: Obj<WsData>, p: string, n: nat)
    requires KeysHeld(o) && n <= |o.keys| && Content(o, p) == Gathered(o, Arrivals(strip, o.keys, p, 0))
    ensures ContentAfter(strip, o, p, n) == Gathered(o, Arrivals(strip, o.keys, p, n))
  {
    if n > 0 {
      GatheredContent(strip, o, p, n - 1);
      var key := o.keys[n - 1];
      if strip(key) != key && key != p && strip(key) == p {
        GatherOne(o, Arrivals(strip, o.keys, p, n - 1), n - 1);
      }
    }
  }

  /** After `n` turns a key holds what its arrivals held, the first holder's winning. */
  lemma {:induction false} MovedHolds(strip: string -> string, o: Obj<WsData>, p: string, n: nat)
    requires o.Valid() && KeysHeld(o) && n <= |o.keys|
    ensures Content(MoveAll(strip, o, n), p) == Gathered(o, Arrivals(strip, o.keys, p, n))
  {
    StartHolds(strip, o, p);
    MovedContent(strip, o, p, n);
    GatheredContent(strip, o, p, n);
  }

  lemma {:induction false} FirstWinsHolds(o: Obj<WsData>, who: seq<nat>, c: string)
    requires KeysHeld(o) && Within(who, |o.keys|)
    ensures c in FirstWins(o, who) <==> exists a :: 0 <= a < |who| && c in Held(o, who[a])
  {
    if who != [] {
      var m := |who| - 1;
      FirstWinsHolds(o, who[..m], c);
      assert forall a :: 0 <= a < m ==> who[..m][a] == who[a];
    }
  }

  lemma {:induction false} FirstWinsTakes(o: Obj<WsData>, who: seq<nat>, a: nat, c: string)
    requires KeysHeld(o) && Within(who, |o.keys|)
    requires a < |who| && c in Held(o, who[a]) && forall b :: 0 <= b < a ==> c !in Held(o, who[b])
    ensures c in FirstWins(o, who) && FirstWins(o, who)[c] == Held(o, who[a])[c]
    decreases |who|
  {
    var m := |who| - 1;
    if a < m {
      FirstWinsTakes(o, who[..m], a, c);
    } else {
      FirstWinsHolds(o, who[..m], c);
    }
  }

  // ----- where conversations end up

  ghost predicate EndsAt(strip: string -> string, keys: seq<string>, i: nat, p: string) {
    i < |keys| && strip(keys[i]) == p && !Overtaken(strip, keys, i)
  }

  ghost predicate Has(o: Obj<WsData>, p: string, c: string) {
    p in o.vals && c in o.vals[p].conversations.vals
  }

  lemma {:induction false} PointKeeps(o: Obj<WsData>, activeWs: string, activeConv: string, p: string)
    requires o.Valid()
    ensures Content(Point(o, activeWs, activeConv).workspaces, p) == Content(o, p)
    ensures Point(o, activeWs, activeConv).workspaces.keys == o.keys
  {
  }

  lemma {:induction false} NormalizedHolds(s: Store, p: string)
    requires s.Valid()
    ensures var o := s.workspaces;
            Content(Normalized(s).workspaces, p) ==
            Gathered(o, Arrivals(StripExtPrefix, o.keys, p, |o.keys|))
  {
    var o := s.workspaces;
    var n := |o.keys|;
    MoveAllIsValid(StripExtPrefix, o, n);
    MovedHolds(StripExtPrefix, o, p, n);
    PointKeeps(MoveAll(StripExtPrefix, o, n), StripExtPrefix(s.activeWs), s.activeConv, p);
  }

  lemma {:induction false} FinalArrivals(strip: string -> string, keys: seq<string>, p: string)
    requires NoRepeats(keys)
    ensures forall i: nat :: i in Arrivals(strip, keys, p, |keys|) <==> EndsAt(strip, keys, i, p)
  {
    forall i: nat ensures i in Arrivals(strip, keys, p, |keys|) <==> EndsAt(strip, keys, i, p) {
      ArrivalsAre(strip, keys, p, |keys|, i);
    }
  }

  /** The conversations under a key are those of the workspaces whose key strips to it and that no
      later key overtakes. */
  lemma {:induction false} WhereConversationsEnd(s: Store, p: string, c: string)
    requires s.Valid()
    ensures p in Normalized(s).workspaces.vals <==> exists i: nat :: EndsAt(StripExtPrefix, s.workspaces.keys, i, p)
    ensures Has(Normalized(s).workspaces, p, c) <==>
            exists i: nat :: EndsAt(StripExtPrefix, s.workspaces.keys, i, p) && c in Held(s.workspaces, i)
  {
    var o := s.workspaces;
    var who := Arrivals(StripExtPrefix, o.keys, p, |o.keys|);
    NormalizedHolds(s, p);
    FinalArrivals(StripExtPrefix, o.keys, p);
    FirstWinsHolds(o, who, c);
    if who != [] { assert who[0] in who; }
    if i: nat :| EndsAt(StripExtPrefix, o.keys, i, p) && c in Held(o, i) {
      assert i in who;
    }
    if a :| 0 <= a < |who| && c in Held(o, who[a]) {
      assert who[a] in who;
    }
  }

  /** Of workspaces that hold the same conversation the plain one wins, then the earliest. */
  lemma {:induction false} FirstHolderWins(s: Store, p: string, c: string, i: nat)
    requires s.Valid()
    requires EndsAt(StripExtPrefix, s.workspaces.keys, i, p) && c in Held(s.workspaces, i)
    requires s.workspaces.keys[i] == p ||
             forall j: nat :: EndsAt(StripExtPrefix, s.workspaces.keys, j, p) && c in Held(s.workspaces, j) ==>
               i <= j && s.workspaces.keys[j] != p
    ensures Has(Normalized(s).workspaces, p, c)
    ensures Normalized(s).workspaces.vals[p].conversations.vals[c] == Held(s.workspaces, i)[c]
  {
    var o := s.workspaces;
    var who := Arrivals(StripExtPrefix, o.keys, p, |o.keys|);
    NormalizedHolds(s, p);
    FinalArrivals(StripExtPrefix, o.keys, p);
    ArrivalsInOrder(StripExtPrefix, o.keys, p, |o.keys|);
    assert i in who;
    var a :| 0 <= a < |who| && who[a] == i;
    forall b | 0 <= b < a ensures c !in Held(o, who[b]) {
      assert who[b] in who;
    }
    FirstWinsTakes(o, who, a, c);
  }

  /** A conversation reaches the plain spelling of its workspace. */
  ghost predicate Reaches(s: Store, i: nat, c: string)
    requires s.Valid() && i < |s.workspaces.keys|
  {
    Has(Normalized(s).workspaces, StripExtPrefix(s.workspaces.keys[i]), c)
  }

  /** The same conversation arrives there with a workspace nothing overtakes. */
  ghost predicate ComesAgain(s: Store, i: nat, c: string)
    requires s.Valid() && i < |s.workspaces.keys|
  {
    exists j: nat :: EndsAt(StripExtPrefix, s.workspaces.keys, j, StripExtPrefix(s.workspaces.keys[i])) &&
      c in Held(s.workspaces, j)
  }

  /** No conversation is lost exactly when each one of an overtaken workspace comes again. */
  lemma {:induction false} NothingIsLostIff(s: Store)
    requires s.Valid()
    ensures var o := s.workspaces;
            (forall i: nat, c :: i < |o.keys| && c in Held(o, i) ==> Reaches(s, i, c)) <==>
            (forall i: nat, c :: i < |o.keys| && c in Held(o, i) && Overtaken(StripExtPrefix, o.keys, i) ==>
              ComesAgain(s, i, c))
  {
    var o := s.workspaces;
    forall i: nat, c | i < |o.keys| && c in Held(o, i)
      ensures Reaches(s, i, c) <==> ComesAgain(s, i, c)
      ensures !Overtaken(StripExtPrefix, o.keys, i) ==> ComesAgain(s, i, c)
    {
      WhereConversationsEnd(s, StripExtPrefix(o.keys[i]), c);
      assert !Overtaken(StripExtPrefix, o.keys, i) ==> EndsAt(StripExtPrefix, o.keys, i, StripExtPrefix(o.keys[i]));
    }
  }

  ghost predicate NoneDoubled(keys: seq<string>) {
    forall k :: k in keys ==> !Prefixed(StripExtPrefix(k))
  }

  /** Without doubly prefixed keys each plain workspace holds what all its spellings held. */
  lemma {:induction false} SpellingsAreGathered(s: Store, p: string, c: string)
    requires s.Valid() && NoneDoubled(s.workspaces.keys)
    ensures Has(Normalized(s).workspaces, p, c) <==>
            exists i: nat :: i < |s.workspaces.keys| && StripExtPrefix(s.workspaces.keys[i]) == p &&
              c in Held(s.workspaces, i)
    ensures p in Normalized(s).workspaces.vals ==> !Prefixed(p)
  {
    var keys := s.workspaces.keys;
    WhereConversationsEnd(s, p, c);
    forall i: nat | i < |keys| ensures EndsAt(StripExtPrefix, keys, i, p) <==> StripExtPrefix(keys[i]) == p {
      assert keys[i] in keys;
    }
  }

  const SINGLE := "//?/a"
  const DOUBLE := "//?/" + SINGLE

  function WithOne(c: string): WsData {
    WsData(false, Obj([c], map[c := ""]), [c], Some(c), None)
  }

  /** A doubly prefixed key in front of its stripped form: its conversation is nowhere afterwards. */
  lemma {:induction false} AConversationIsLost()
    ensures var s := Store(SINGLE, "x", Obj([DOUBLE, SINGLE], map[DOUBLE := WithOne("x"), SINGLE := WithOne("y")]));
            s.Valid() && forall p :: !Has(Normalized(s).workspaces, p, "x")
  {
    var o := Obj([DOUBLE, SINGLE], map[DOUBLE := WithOne("x"), SINGLE := WithOne("y")]);
    var s := Store(SINGLE, "x", o);
    assert DOUBLE[4..] == SINGLE && |DOUBLE| != |SINGLE|;
    assert SINGLE[0] == '/' && "//?/" <= DOUBLE && Prefixed(SINGLE);
    assert StripExtPrefix(DOUBLE) == SINGLE && o.keys[1] == SINGLE;
    assert Overtaken(StripExtPrefix, o.keys, 0);
    forall p ensures !Has(Normalized(s).workspaces, p, "x") {
      WhereConversationsEnd(s, p, "x");
    }
  }

  // ----- what the twin keeps

  /** What a workspace keeps when others are merged into it. */
  ghost predicate Keeps(was: WsData, now: WsData) {
    && was.order <= now.order
    && now.perms == was.perms
    && (was.expanded ==> now.expanded)
    && (Names(was.activeConv, was.conversations) ==> now.activeConv == was.activeConv)
    && forall c :: c in was.conversations.vals ==>
         c in now.conversations.vals && now.conversations.vals[c] == was.conversations.vals[c]
  }

  lemma {:induction false} KeepsOn(a: WsData, b: WsData, c: WsData)
    requires Keeps(a, b) && Keeps(b, c)
    ensures Keeps(a, c)
  {
  }

  lemma {:induction false} MovedKeeps(strip: string -> string, o: Obj<WsData>, p: string, n: nat)
    requires AllValid(o) && n <= |o.keys| && p in o.vals && strip(p) == p
    ensures p in MoveAll(strip, o, n).vals && Keeps(o.vals[p], MoveAll(strip, o, n).vals[p])
  {
    if n > 0 {
      MovedKeeps(strip, o, p, n - 1);
      var before, key := MoveAll(strip, o, n - 1), o.keys[n - 1];
      if strip(key) != key && strip(key) == p {
        KeepsOn(o.vals[p], before.vals[p], Merged(before.vals[p], o.vals[key]));
      }
    }
  }

  /** A plain workspace keeps its conversations, its order in front, its permissions, and, unless it is
      the active one, the conversation it had open. */
  lemma {:induction false} PlainWorkspaceKeepsItsOwn(s: Store, p: string)
    requires s.Valid() && p in s.workspaces.vals && !Prefixed(p)
    ensures var r := Normalized(s);
            && p in r.workspaces.vals
            && Keeps(s.workspaces.vals[p],
               r.workspaces.vals[p].(activeConv :=
                       if p == r.activeWs then s.workspaces.vals[p].activeConv else r.workspaces.vals[p].activeConv))
  {
    var n := |s.workspaces.keys|;
    MoveAllIsValid(StripExtPrefix, s.workspaces, n);
    MovedKeeps(StripExtPrefix, s.workspaces, p, n);
  }
}
