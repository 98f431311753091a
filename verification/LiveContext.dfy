/** The conversation a run works on: a live context sent to the model beside the persisted transcript,
    and the updates that keep loading the transcript equal to the live context. */
module LiveContext {
  import opened Text
  import opened Transcript

  /** A message object: rewriting replaces objects by identity, not by content. */
  datatype Ref = Ref(id: nat, msg: Message)

  const SUMMARY_TAG := "<compacted-summary>"
  const PREAMBLE := "This is an automatically generated checkpoint"

  function TrimStart(s: string): string {
    TrimmedStart(IsJsSpace, s)
  }

  function Trim(s: string): string {
    Trimmed(IsJsSpace, s)
  }

  predicate IsCheckpoint(m: Message) {
    || m.displayName == Some("Compaction Summary")
    || (m.role == User && (SUMMARY_TAG <= TrimStart(m.content) || PREAMBLE <= TrimStart(m.content)))
  }

  /** The transcript from its last checkpoint on. */
  function CompactedContext(ms: seq<Ref>): seq<Ref> {
    if ms == [] then []
    else
      var n := |ms| - 1;
      if IsCheckpoint(ms[n].msg) then [ms[n]] else CompactedContext(ms[..n]) + [ms[n]]
  }

  method LoadContext(ms: seq<Ref>) returns (context: seq<Ref>)
    ensures context == CompactedContext(ms)
  {
    var i := |ms|;
    assert ms[..|ms|] == ms && ms[|ms|..] == [];
    while i > 0
      invariant 0 <= i <= |ms|
      invariant CompactedContext(ms) == CompactedContext(ms[..i]) + ms[i..]
    {
      assert ms[..i][..i - 1] == ms[..i - 1] && ms[..i][i - 1] == ms[i - 1];
      assert [ms[i - 1]] + ms[i..] == ms[i - 1..];
      if IsCheckpoint(ms[i - 1].msg) {
        return ms[i - 1..];
      }
      Regroup(CompactedContext(ms[..i - 1]), [ms[i - 1]], ms[i..]);
      i := i - 1;
    }
    return ms;
  }

  // ----- loading back

  ghost predicate Plain(ms: seq<Ref>) {
    forall i :: 0 <= i < |ms| ==> !IsCheckpoint(ms[i].msg)
  }

  lemma {:induction false} ContextAppend(ms: seq<Ref>, more: seq<Ref>)
    requires Plain(more)
    ensures CompactedContext(ms + more) == CompactedContext(ms) + more
    decreases |more|
  {
    if more == [] {
      assert ms + more == ms;
    } else {
      var n := |more| - 1;
      ContextAppend(ms, more[..n]);
      assert (ms + more)[..|ms + more| - 1] == ms + more[..n];
      Regroup(CompactedContext(ms), more[..n], [more[n]]);
      assert more[..n] + [more[n]] == more;
    }
  }

  lemma {:induction false} ContextIsSuffix(ms: seq<Ref>)
    ensures |CompactedContext(ms)| <= |ms| && CompactedContext(ms) == ms[|ms| - |CompactedContext(ms)|..]
  {
    if ms != [] && !IsCheckpoint(ms[|ms| - 1].msg) {
      ContextIsSuffix(ms[..|ms| - 1]);
    }
  }

  /** Replacing messages without making or unmaking checkpoints keeps the cut where it is. */
  lemma {:induction false} ContextOfReplaced(ms: seq<Ref>, ms': seq<Ref>)
    requires |ms| == |ms'| && forall i :: 0 <= i < |ms| ==> (IsCheckpoint(ms[i].msg) <==> IsCheckpoint(ms'[i].msg))
    ensures |CompactedContext(ms)| <= |ms|
    ensures CompactedContext(ms') == ms'[|ms| - |CompactedContext(ms)|..]
  {
    if ms != [] {
      var n := |ms| - 1;
      ContextOfReplaced(ms[..n], ms'[..n]);
      assert IsCheckpoint(ms[n].msg) <==> IsCheckpoint(ms'[n].msg);
      var k := n - |CompactedContext(ms[..n])|;
      if IsCheckpoint(ms[n].msg) {
        assert ms'[n..] == [ms'[n]];
      } else {
        SliceToEnd(ms', k);
      }
    }
  }

  lemma {:induction false} SliceToEnd<T>(s: seq<T>, k: nat)
    requires k < |s|
    ensures s[..|s| - 1][k..] + [s[|s| - 1]] == s[k..]
  {
  }

  /** A run starts from the stored transcript's context with one more message appended to both.
      That agrees with reloading exactly when the message does not read as a checkpoint. */
  lemma {:induction false} QueuedStartIff(base: seq<Ref>, m: Ref)
    ensures CompactedContext(base + [m]) == CompactedContext(base) + [m] <==> base == [] || !IsCheckpoint(m.msg)
  {
    assert (base + [m])[..|base|] == base;
  }

  // ----- the state of a run

  /** The loop's variables. */
  datatype Run = Run(
    live: seq<Ref>,
    transcript: seq<Ref>,
    nextId: nat,
    tokens: nat,
    steps: nat,
    repairs: nat,
    critics: nat,
    continues: nat)

  function Contents(ms: seq<Ref>): seq<Message> {
    seq(|ms|, i requires 0 <= i < |ms| => ms[i].msg)
  }

  ghost predicate Distinct(ms: seq<Ref>, nextId: nat) {
    && (forall i :: 0 <= i < |ms| ==> ms[i].id < nextId)
    && (forall i, j :: 0 <= i < j < |ms| ==> ms[i].id != ms[j].id)
  }

  /** Loading the transcript gives the live context, object by object. */
  ghost predicate Sync(r: Run) {
    CompactedContext(r.transcript) == r.live && Distinct(r.transcript, r.nextId)
  }

  function Fresh(nextId: nat, ms: seq<Message>): seq<Ref> {
    seq(|ms|, i requires 0 <= i < |ms| => Ref(nextId + i, ms[i]))
  }

  /** Append to the live context and to the transcript. */
  function Push(r: Run, ms: seq<Message>): Run {
    var more := Fresh(r.nextId, ms);
    r.(live := r.live + more, transcript := r.transcript + more, nextId := r.nextId + |ms|)
  }

  /** A notice that only the transcript shows. */
  function Note(r: Run, m: Message): Run {
    r.(transcript := r.transcript + [Ref(r.nextId, m)], nextId := r.nextId + 1)
  }

  /** The summary replaces the live context; the transcript keeps everything. */
  function Compact(r: Run, content: string): Run {
    var summary := Ref(r.nextId, UserNote("Compaction Summary", content));
    r.(live := [summary], transcript := r.transcript + [summary], nextId := r.nextId + 1, tokens := 0)
  }

  /** The replacement a message object has in a map from `was` to `becomes` objects, if any. */
  function Swap(was: seq<Ref>, becomes: seq<Ref>, m: Ref): Ref
    requires |was| == |becomes|
  {
    if was == [] then m
    else
      var n := |was| - 1;
      if was[n] == m && becomes[n] != m then becomes[n] else Swap(was[..n], becomes[..n], m)
  }

  function SwapAll(was: seq<Ref>, becomes: seq<Ref>, ms: seq<Ref>): seq<Ref>
    requires |was| == |becomes|
  {
    seq(|ms|, i requires 0 <= i < |ms| => Swap(was, becomes, ms[i]))
  }

  /** Packing replaces the content of tool messages, each by a new object. */
  function Packed(ms: seq<Ref>, nextId: nat, pack: nat -> Option<string>): (r: seq<Ref>)
    ensures |r| == |ms|
  {
    seq(|ms|, i requires 0 <= i < |ms| =>
      if ms[i].msg.role == Tool && pack(i).Some? then Ref(nextId + i, ms[i].msg.(content := pack(i).value)) else ms[i])
  }

  function Pack(r: Run, pack: nat -> Option<string>): Run {
    var packed := Packed(r.live, r.nextId, pack);
    r.(live := packed, transcript := SwapAll(r.live, packed, r.transcript), nextId := r.nextId + |r.live|)
  }

  /** Rewriting the reply that was just appended. */
  function Rewrite(r: Run, was: Ref, content: string): Run {
    var updated := Ref(r.nextId, was.msg.(content := content));
    r.(live := SwapAll([was], [updated], r.live), transcript := SwapAll([was], [updated], r.transcript),
      nextId := r.nextId + 1)
  }

  // ----- each update keeps the two in step

  ghost predicate PlainMessages(ms: seq<Message>) {
    forall i :: 0 <= i < |ms| ==> !IsCheckpoint(ms[i])
  }

  lemma {:induction false} PushKeepsSync(r: Run, ms: seq<Message>)
    requires Sync(r) && PlainMessages(ms)
    ensures Sync(Push(r, ms))
  {
    ContextAppend(r.transcript, Fresh(r.nextId, ms));
  }

  lemma {:induction false} CompactKeepsSync(r: Run, content: string)
    requires Sync(r)
    ensures Sync(Compact(r, content))
  {
    var t := Compact(r, content).transcript;
    assert t[..|t| - 1] == r.transcript;
  }

  lemma {:induction false} SwapOther(was: seq<Ref>, becomes: seq<Ref>, m: Ref)
    requires |was| == |becomes| && m !in was
    ensures Swap(was, becomes, m) == m
    decreases |was|
  {
    if was != [] { SwapOther(was[..|was| - 1], becomes[..|was| - 1], m); }
  }

  lemma {:induction false} SwapAt(was: seq<Ref>, becomes: seq<Ref>, i: nat)
    requires |was| == |becomes| && i < |was|
    requires forall j, k :: 0 <= j < k < |was| ==> was[j].id != was[k].id
    ensures Swap(was, becomes, was[i]) == becomes[i]
    decreases |was|
  {
    var n := |was| - 1;
    if i < n {
      SwapAt(was[..n], becomes[..n], i);
    } else if becomes[n] == was[n] {
      SwapOther(was[..n], becomes[..n], was[n]);
    }
  }

  /** New objects get ids nobody has, and no checkpoint comes or goes. */
  ghost predicate Replaces(was: seq<Ref>, becomes: seq<Ref>, nextId: nat) {
    && |was| == |becomes|
    && (forall i :: 0 <= i < |was| ==> becomes[i] == was[i] || becomes[i].id == nextId + i)
    && (forall i :: 0 <= i < |was| ==> (IsCheckpoint(was[i].msg) <==> IsCheckpoint(becomes[i].msg)))
    && (forall j, k :: 0 <= j < k < |was| ==> was[j].id != was[k].id)
  }

  lemma {:induction false} SwapCases(was: seq<Ref>, becomes: seq<Ref>, nextId: nat, m: Ref) returns (i: int)
    requires Replaces(was, becomes, nextId)
    ensures Swap(was, becomes, m) == m ||
            (0 <= i < |was| && was[i] == m && Swap(was, becomes, m) == becomes[i] && becomes[i].id == nextId + i)
    ensures IsCheckpoint(Swap(was, becomes, m).msg) <==> IsCheckpoint(m.msg)
  {
    i := -1;
    if m in was {
      i :| 0 <= i < |was| && was[i] == m;
      SwapAt(was, becomes, i);
    } else {
      SwapOther(was, becomes, m);
    }
  }

  lemma {:induction false} SwapKeepsDistinct(was: seq<Ref>, becomes: seq<Ref>, ms: seq<Ref>, nextId: nat)
    requires Distinct(ms, nextId) && Replaces(was, becomes, nextId)
    ensures Distinct(SwapAll(was, becomes, ms), nextId + |was|)
  {
    var ms' := SwapAll(was, becomes, ms);
    forall i | 0 <= i < |ms|
      ensures ms'[i].id < nextId + |was|
    {
      var k := SwapCases(was, becomes, nextId, ms[i]);
    }
    forall i, j | 0 <= i < j < |ms|
      ensures ms'[i].id != ms'[j].id
    {
      var k := SwapCases(was, becomes, nextId, ms[i]);
      var l := SwapCases(was, becomes, nextId, ms[j]);
    }
  }

  lemma {:induction false} SwapKeepsCheckpoints(was: seq<Ref>, becomes: seq<Ref>, ms: seq<Ref>, nextId: nat)
    requires Distinct(ms, nextId) && Replaces(was, becomes, nextId)
    ensures forall i :: 0 <= i < |ms| ==> (IsCheckpoint(ms[i].msg) <==> IsCheckpoint(SwapAll(was, becomes, ms)[i].msg))
  {
    forall i | 0 <= i < |ms|
      ensures IsCheckpoint(ms[i].msg) <==> IsCheckpoint(SwapAll(was, becomes, ms)[i].msg)
    {
      var k := SwapCases(was, becomes, nextId, ms[i]);
    }
  }

  lemma {:induction false} SwapKeepsSync(r: Run, was: seq<Ref>, becomes: seq<Ref>, r': Run)
    requires Sync(r) && Replaces(was, becomes, r.nextId)
    requires r'.transcript == SwapAll(was, becomes, r.transcript) && r'.live == SwapAll(was, becomes, r.live) &&
             r'.nextId == r.nextId + |was|
    ensures Sync(r')
  {
    SwapKeepsDistinct(was, becomes, r.transcript, r.nextId);
    SwapKeepsCheckpoints(was, becomes, r.transcript, r.nextId);
    ContextOfReplaced(r.transcript, r'.transcript);
    ContextIsSuffix(r.transcript);
    var n := |r.transcript| - |r.live|;
    assert SwapAll(was, becomes, r.transcript)[n..] == SwapAll(was, becomes, r.transcript[n..]);
  }

  lemma {:induction false} LiveIsDistinct(r: Run)
    requires Sync(r)
    ensures Distinct(r.live, r.nextId)
  {
    ContextIsSuffix(r.transcript);
  }

  lemma {:induction false} PackKeepsSync(r: Run, pack: nat -> Option<string>)
    requires Sync(r)
    ensures Sync(Pack(r, pack))
  {
    LiveIsDistinct(r);
    var packed := Packed(r.live, r.nextId, pack);
    assert Replaces(r.live, packed, r.nextId);
    forall i | 0 <= i < |r.live|
      ensures Swap(r.live, packed, r.live[i]) == packed[i]
    {
      SwapAt(r.live, packed, i);
    }
    assert SwapAll(r.live, packed, r.live) == packed;
    SwapKeepsSync(r, r.live, packed, Pack(r, pack));
  }

  /** The reply is the last live message; rewriting it leaves everything before it alone. */
  lemma {:induction false} RewriteKeepsSync(r: Run, content: string)
    requires Sync(r) && r.live != [] && r.live[|r.live| - 1].msg.role == Assistant
    ensures var r' := Rewrite(r, r.live[|r.live| - 1], content);
            Sync(r') && |r'.live| == |r.live| && r'.live[..|r.live| - 1] == r.live[..|r.live| - 1]
  {
    var n := |r.live| - 1;
    var was := r.live[n];
    var updated := Ref(r.nextId, was.msg.(content := content));
    LiveIsDistinct(r);
    SwapKeepsSync(r, [was], [updated], Rewrite(r, was, content));
    forall i | 0 <= i < n
      ensures Swap([was], [updated], r.live[i]) == r.live[i]
    {
      SwapOther([was], [updated], r.live[i]);
    }
  }
}
