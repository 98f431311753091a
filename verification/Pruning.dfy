/** Shrinking a conversation for a cloud provider: long old texts are cut in the middle, and if that
    is not enough the oldest middle turns go. */
module Pruning {
  import opened Text
  import opened Transcript

  const MAX_CLOUD_CHARS := 600_000

  const CUT_OPEN := "\n\n...["
  const CUT_CLOSE := " bytes of historical tool output pruned for cloud optimization]...\n\n"

  function Shortened(content: string): string
    requires |content| > 1200
  {
    content[..600] + CUT_OPEN + Decimal(|content| - 900) + CUT_CLOSE + content[|content| - 300..]
  }

  /** All but the last four messages, shortened where they are long. */
  function ShortenOld(messages: seq<Message>): (r: seq<Message>)
    ensures |r| == |messages|
  {
    seq(|messages|, i requires 0 <= i < |messages| =>
      if i >= |messages| - 4 || |messages[i].content| <= 1200 then messages[i]
      else messages[i].(content := Shortened(messages[i].content)))
  }

  function Chars(ms: seq<Message>): nat {
    if ms == [] then 0 else |ms[0].content| + Chars(ms[1..])
  }

  const NOTICE_OPEN := "[System Notice: "
  const NOTICE_REST := " older historical turns were automatically omitted to stay within cloud context limits.]"

  function Notice(omitted: nat): Message {
    UserNote("Pruned Context", NOTICE_OPEN + Decimal(omitted) + NOTICE_REST)
  }

  /** The middle is kept from `cut` on: the longest end of it that fits beside the `base` characters. */
  ghost predicate IsCut(middle: seq<Message>, base: nat, cut: nat) {
    && cut <= |middle|
    && (cut < |middle| ==> base + Chars(middle[cut..]) <= MAX_CLOUD_CHARS)
    && (cut > 0 ==> base + Chars(middle[cut - 1..]) > MAX_CLOUD_CHARS)
  }

  ghost predicate TooLong(ms: seq<Message>) {
    Chars(ms) > MAX_CLOUD_CHARS && |ms| > 6
  }

  function Middle(ms: seq<Message>): seq<Message>
    requires |ms| > 6
  {
    ms[2..|ms| - 4]
  }

  ghost function Base(ms: seq<Message>): nat
    requires |ms| > 6
  {
    Chars(ms[..2]) + Chars(ms[|ms| - 4..])
  }

  /** Take turns from the end of the middle while they fit. */
  method KeepMiddle(middle: seq<Message>, base: nat) returns (keptMiddle: seq<Message>)
    ensures var cut := |middle| - |keptMiddle|; cut >= 0 && IsCut(middle, base, cut) && keptMiddle == middle[cut..]
  {
    var currentChars := base;
    keptMiddle := [];
    var i := |middle|;
    while i > 0
      invariant 0 <= i <= |middle|
      invariant keptMiddle == middle[i..]
      invariant currentChars == base + Chars(keptMiddle)
      invariant i < |middle| ==> currentChars <= MAX_CLOUD_CHARS
    {
      var len := |middle[i - 1].content|;
      assert middle[i - 1..] == [middle[i - 1]] + middle[i..];
      if currentChars + len > MAX_CLOUD_CHARS {
        break;
      }
      currentChars := currentChars + len;
      keptMiddle := [middle[i - 1]] + keptMiddle;
      i := i - 1;
    }
  }

  /** What is left when the first `cut` turns of the middle go. */
  function WithoutTurns(ms: seq<Message>, cut: nat): seq<Message>
    requires |ms| > 6 && cut <= |ms| - 6
  {
    ms[..2] + [Notice(cut)] + ms[2 + cut..|ms| - 4] + ms[|ms| - 4..]
  }

  /** Where the budget cuts the middle. */
  ghost function CutOf(middle: seq<Message>, base: nat): (cut: nat)
    ensures IsCut(middle, base, cut)
  {
    if middle == [] then 0
    else if base + Chars(middle) <= MAX_CLOUD_CHARS then assert middle[0..] == middle; 0
    else
      var cut := CutOf(middle[1..], base);
      assert middle[cut + 1..] == middle[1..][cut..];
      assert cut > 0 ==> middle[cut..] == middle[1..][cut - 1..];
      assert middle[0..] == middle;
      cut + 1
  }

  lemma {:induction false} CutOfIs(middle: seq<Message>, base: nat, cut: nat)
    requires IsCut(middle, base, cut)
    ensures cut == CutOf(middle, base)
  {
    CutIsLongest(middle, base, cut, CutOf(middle, base));
  }

  /** The conversation with its oldest middle turns gone, if it is too long. */
  ghost function Dropped(ms: seq<Message>): seq<Message> {
    if TooLong(ms) then WithoutTurns(ms, CutOf(Middle(ms), Base(ms))) else ms
  }

  /** Says how many turns are gone. */
  predicate Tells(m: Message, omitted: nat) {
    && m.role == User && m.calls == [] && m.callId == None && m.displayName == Some("Pruned Context") && m.collapsed
    && m.content == NOTICE_OPEN + Decimal(omitted) + NOTICE_REST
  }

  /** The first two and the last four messages, and between them a notice and the last messages of the middle, as
      many as fit with the first and last. */
  ghost predicate KeepsNewest(ms: seq<Message>, out: seq<Message>) {
    var n, kept := |ms|, |out| - 7;
    && n > 6 && 0 <= kept <= n - 6
    && out[..2] == ms[..2] && Tells(out[2], n - 6 - kept)
    && out[3..3 + kept] == ms[n - 4 - kept..n - 4] && out[3 + kept..] == ms[n - 4..]
    && (kept > 0 ==> Base(ms) + Chars(ms[n - 4 - kept..n - 4]) <= 600_000)
    && (kept < n - 6 ==> Base(ms) + Chars(ms[n - 5 - kept..n - 4]) > 600_000)
  }

  lemma {:induction false} PartsKeepNewest(ms: seq<Message>, cut: nat, notice: Message)
    requires |ms| > 6 && IsCut(Middle(ms), Base(ms), cut) && Tells(notice, cut)
    ensures KeepsNewest(ms, ms[..2] + [notice] + ms[2 + cut..|ms| - 4] + ms[|ms| - 4..])
  {
    var n, kept := |ms|, |ms| - 6 - cut;
    var out := ms[..2] + [notice] + ms[2 + cut..n - 4] + ms[n - 4..];
    assert out[3..3 + kept] == ms[n - 4 - kept..n - 4];
    assert Middle(ms)[cut..] == ms[n - 4 - kept..n - 4];
    assert cut > 0 ==> Middle(ms)[cut - 1..] == ms[n - 5 - kept..n - 4];
  }

  lemma {:induction false} DroppedKeepsNewest(ms: seq<Message>)
    requires TooLong(ms)
    ensures KeepsNewest(ms, Dropped(ms))
  {
    var cut := CutOf(Middle(ms), Base(ms));
    PartsKeepNewest(ms, cut, Notice(cut));
  }

  /** The safeguard for very long conversations. */
  method DropOldTurns(pruned: seq<Message>) returns (out: seq<Message>)
    ensures out == Dropped(pruned)
    ensures if Chars(pruned) > 600_000 && |pruned| > 6 then KeepsNewest(pruned, out) else out == pruned
  {
    out := pruned;
    var totalChars := Chars(pruned);
    if totalChars > MAX_CLOUD_CHARS && |pruned| > 6 {
      var keepFirst, keepLast, middle := pruned[..2], pruned[|pruned| - 4..], Middle(pruned);
      var keptMiddle := KeepMiddle(middle, Chars(keepFirst) + Chars(keepLast));
      ghost var cut := |middle| - |keptMiddle|;
      CutOfIs(middle, Base(pruned), cut);
      SomethingIsOmitted(pruned, cut);
      DroppedKeepsNewest(pruned);
      var omittedCount := |middle| - |keptMiddle|;
      if omittedCount > 0 {
        out := keepFirst + [Notice(omittedCount)] + keptMiddle + keepLast;
      }
      assert out == Dropped(pruned);
    }
  }

  method PruneContextForCloud(messages: seq<Message>) returns (out: seq<Message>)
    ensures out == Sanitized(if |messages| <= 2 then messages else Dropped(ShortenOld(messages)))
  {
    if |messages| <= 2 {
      out := Sanitize(messages);
      return;
    }
    var pruned := ShortenOld(messages);
    pruned := DropOldTurns(pruned);
    out := Sanitize(pruned);
  }

  lemma {:induction false} CharsConcat(a: seq<Message>, b: seq<Message>)
    ensures Chars(a + b) == Chars(a) + Chars(b)
  {
    if a == [] {
      assert a + b == b;
    } else {
      assert (a + b)[1..] == a[1..] + b;
      CharsConcat(a[1..], b);
    }
  }

  /** When the middle is pruned at all, something does go: the notice is never skipped. */
  lemma {:induction false} SomethingIsOmitted(ms: seq<Message>, cut: nat)
    requires TooLong(ms) && IsCut(Middle(ms), Base(ms), cut)
    ensures cut > 0
  {
    var first, last := ms[..2], ms[|ms| - 4..];
    assert first + Middle(ms) == ms[..|ms| - 4];
    assert ms == first + Middle(ms) + last;
    CharsConcat(first + Middle(ms), last);
    CharsConcat(first, Middle(ms));
    assert Middle(ms)[0..] == Middle(ms);
  }

  /** No longer end of the middle would have fitted, and the cut is the only one of its kind. */
  lemma {:induction false} CutIsLongest(middle: seq<Message>, base: nat, cut: nat, other: nat)
    requires IsCut(middle, base, cut) && other <= |middle|
    ensures other < |middle| && base + Chars(middle[other..]) <= MAX_CLOUD_CHARS ==> cut <= other
    ensures IsCut(middle, base, other) ==> cut == other
  {
    if other < cut {
      assert middle[other..] == middle[other..cut - 1] + middle[cut - 1..];
      CharsConcat(middle[other..cut - 1], middle[cut - 1..]);
    } else if cut < other {
      assert middle[cut..] == middle[cut..other - 1] + middle[other - 1..];
      CharsConcat(middle[cut..other - 1], middle[other - 1..]);
    }
  }

  lemma {:induction false} DecimalIsShort(n: nat)
    ensures |Decimal(n)| <= 1 + n / 10
  {
    if n >= 10 { DecimalIsShort(n / 10); }
  }

  /** Shortening a text always shortens it, keeps both ends, and says between them how many characters are gone. */
  lemma {:induction false} ShortenedIsShorter(content: string)
    requires |content| > 1200
    ensures |Shortened(content)| < |content|
    ensures content[..600] <= Shortened(content)
    ensures Shortened(content)[|Shortened(content)| - 300..] == content[|content| - 300..]
    ensures Shortened(content)[600..|Shortened(content)| - 300] == CUT_OPEN + Decimal(|content| - 900) + CUT_CLOSE
  {
    DecimalIsShort(|content| - 900);
    assert |CUT_OPEN| == 6 && |CUT_CLOSE| == 68;
    InTheMiddle(content[..600], CUT_OPEN, Decimal(|content| - 900), CUT_CLOSE, content[|content| - 300..]);
  }

  lemma {:induction false} InTheMiddle<T>(a: seq<T>, b: seq<T>, c: seq<T>, d: seq<T>, e: seq<T>)
    ensures (a + b + c + d + e)[|a|..|a| + |b| + |c| + |d|] == b + c + d
  {
  }

  lemma {:induction false} CharsShrink(a: seq<Message>, b: seq<Message>)
    requires |a| == |b| && forall i :: 0 <= i < |a| ==> |a[i].content| <= |b[i].content|
    ensures Chars(a) <= Chars(b)
  {
    if a != [] {
      CharsShrink(a[1..], b[1..]);
    }
  }

  /** The conversation never grows by shortening, and the last four messages stay as they are. */
  lemma {:induction false} ShortenOldShrinks(messages: seq<Message>)
    ensures Chars(ShortenOld(messages)) <= Chars(messages)
    ensures forall i :: 0 <= i < |messages| && i >= |messages| - 4 ==> ShortenOld(messages)[i] == messages[i]
    ensures forall i :: 0 <= i < |messages| ==>
              var m := ShortenOld(messages)[i];
              m == messages[i].(content := m.content) &&
                (|m.content| < |messages[i].content| <==> i < |messages| - 4 && |messages[i].content| > 1200)
  {
    forall i | 0 <= i < |messages| && |messages[i].content| > 1200
      ensures |Shortened(messages[i].content)| < |messages[i].content|
    {
      ShortenedIsShorter(messages[i].content);
    }
    CharsShrink(ShortenOld(messages), messages);
  }

  /** What is sent, before the final repair, fits the budget together with the notice, unless the
      first two and last four messages alone exceed it; then nothing else is kept. */
  lemma {:induction false} PrunedFits(ms: seq<Message>, cut: nat)
    requires TooLong(ms) && IsCut(Middle(ms), Base(ms), cut)
    ensures Chars(WithoutTurns(ms, cut)) <= |Notice(cut).content| +
            (if Base(ms) <= MAX_CLOUD_CHARS then MAX_CLOUD_CHARS else Base(ms))
    ensures Base(ms) > MAX_CLOUD_CHARS ==> cut == |Middle(ms)|
  {
    PartsFit(ms, cut, Notice(cut));
  }

  lemma {:induction false} PartsFit(ms: seq<Message>, cut: nat, notice: Message)
    requires |ms| > 6 && IsCut(Middle(ms), Base(ms), cut)
    ensures Chars(ms[..2] + [notice] + ms[2 + cut..|ms| - 4] + ms[|ms| - 4..]) <=
            |notice.content| + (if Base(ms) <= MAX_CLOUD_CHARS then MAX_CLOUD_CHARS else Base(ms))
    ensures Base(ms) > MAX_CLOUD_CHARS ==> cut == |Middle(ms)|
  {
    var kept := Middle(ms)[cut..];
    assert kept == ms[2 + cut..|ms| - 4];
    assert cut == |Middle(ms)| ==> kept == [];
    CharsOfFour(ms[..2], [notice], kept, ms[|ms| - 4..]);
    assert Chars([notice]) == |notice.content|;
  }

  /** No more is dropped than must be: with the newest turn that went, the budget would be exceeded. */
  lemma {:induction false} KeepsEnough(ms: seq<Message>, out: seq<Message>)
    requires KeepsNewest(ms, out) && |out| < |ms| + 1
    ensures var lost := ms[|ms| + 2 - |out|]; Chars(out) + |lost.content| > MAX_CLOUD_CHARS + |out[2].content|
  {
    var n, kept := |ms|, |out| - 7;
    var lost, middle := ms[n - 5 - kept], ms[n - 4 - kept..n - 4];
    assert ms[n - 5 - kept..n - 4] == [lost] + middle;
    assert out == ms[..2] + [out[2]] + middle + ms[n - 4..];
    CharsOfFour(ms[..2], [out[2]], middle, ms[n - 4..]);
    assert Chars([out[2]]) == |out[2].content|;
  }

  lemma {:induction false} CharsOfFour(a: seq<Message>, b: seq<Message>, c: seq<Message>, d: seq<Message>)
    ensures Chars(a + b + c + d) == Chars(a) + Chars(b) + Chars(c) + Chars(d)
  {
    CharsConcat(a + b + c, d);
    CharsConcat(a + b, c);
    CharsConcat(a, b);
  }
}
