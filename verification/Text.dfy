/** Decimal text, lexicographic order, and splitting at a separator character. */
module Text {

  datatype Option<+T> = None | Some(value: T)

  function Or<T>(o: Option<T>, default: T): T {
    match o case None => default case Some(v) => v
  }

  // ----- white space as JavaScript's trim sees it

  predicate IsJsSpace(c: char) {
    || c == ' ' || '\t' <= c <= '\r' || c == '\U{A0}' || c == '\U{1680}' || '\U{2000}' <= c <= '\U{200A}'
    || c == '\U{2028}' || c == '\U{2029}' || c == '\U{202F}' || c == '\U{205F}' || c == '\U{3000}' || c == '\U{FEFF}'
  }

  predicate Blank(s: string) {
    forall i :: 0 <= i < |s| ==> IsJsSpace(s[i])
  }

  function TrimmedStart(space: char -> bool, s: string): string {
    if s != [] && space(s[0]) then TrimmedStart(space, s[1..]) else s
  }

  function TrimmedEnd(space: char -> bool, s: string): string {
    if s != [] && space(s[|s| - 1]) then TrimmedEnd(space, s[..|s| - 1]) else s
  }

  function Trimmed(space: char -> bool, s: string): string {
    TrimmedEnd(space, TrimmedStart(space, s))
  }

  // ----- decimal numbers

  predicate Digits(s: string) {
    forall i :: 0 <= i < |s| ==> '0' <= s[i] <= '9'
  }

  function DigitChar(n: nat): char
    requires n < 10
  {
    '0' + n as char
  }

  function Value(s: string): nat
    requires Digits(s)
  {
    if s == [] then 0 else Value(s[..|s| - 1]) * 10 + (s[|s| - 1] - '0') as nat
  }

  function Decimal(n: nat): (s: string)
    ensures s != [] && Digits(s) && Value(s) == n
  {
    if n < 10 then [DigitChar(n)] else Decimal(n / 10) + [DigitChar(n % 10)]
  }

  function Zeros(n: nat): (s: string)
    ensures |s| == n && Digits(s)
  {
    seq(n, i => '0')
  }

  /** `n` in decimal, filled up with leading zeros to at least `width` characters. */
  function Padded(n: nat, width: nat): string {
    var s := Decimal(n);
    if |s| < width then Zeros(width - |s|) + s else s
  }

  lemma {:induction false} ZerosInFront(n: nat, s: string)
    requires Digits(s)
    ensures Digits(Zeros(n) + s) && Value(Zeros(n) + s) == Value(s)
    decreases n + |s|
  {
    var t := Zeros(n) + s;
    if s != [] {
      assert t[..|t| - 1] == Zeros(n) + s[..|s| - 1];
      ZerosInFront(n, s[..|s| - 1]);
    } else if n > 0 {
      assert t[..n - 1] == Zeros(n - 1) + [];
      ZerosInFront(n - 1, []);
    }
  }

  function Pow10(k: nat): nat {
    if k == 0 then 1 else 10 * Pow10(k - 1)
  }

  lemma {:induction false} DecimalLength(n: nat, k: nat)
    requires 1 <= k
    ensures |Decimal(n)| <= k <==> n < Pow10(k)
    decreases k
  {
    if k == 1 {
      assert Pow10(1) == 10 * Pow10(0);
    } else if n >= 10 {
      DecimalLength(n / 10, k - 1);
    } else {
      Pow10Grows(k);
    }
  }

  lemma {:induction false} Pow10Grows(k: nat)
    requires 1 <= k
    ensures 10 <= Pow10(k)
  {
    if k > 1 { Pow10Grows(k - 1); }
  }

  /** Padding keeps the value, and fixes the length of numbers that fit. */
  lemma {:induction false} PaddedNumber(n: nat, width: nat)
    requires 1 <= width
    ensures Digits(Padded(n, width)) && Value(Padded(n, width)) == n
    ensures |Padded(n, width)| >= width
    ensures n < Pow10(width) <==> |Padded(n, width)| == width
  {
    DecimalLength(n, width);
    var s := Decimal(n);
    if |s| < width { ZerosInFront(width - |s|, s); }
  }

  // ----- lexicographic order

  predicate LexLess(s: string, t: string) {
    t != [] && (s == [] || s[0] < t[0] || (s[0] == t[0] && LexLess(s[1..], t[1..])))
  }

  predicate LexAtMost(s: string, t: string) {
    s == t || LexLess(s, t)
  }

  lemma {:induction false} LexConcat(a: string, x: string, b: string, y: string)
    requires |a| == |b|
    ensures LexLess(a + x, b + y) <==> LexLess(a, b) || (a == b && LexLess(x, y))
  {
    if a == [] {
      assert a + x == x && b + y == y;
    } else {
      assert (a + x)[1..] == a[1..] + x && (b + y)[1..] == b[1..] + y;
      LexConcat(a[1..], x, b[1..], y);
      assert a == [a[0]] + a[1..] && b == [b[0]] + b[1..];
    }
  }

  /** Numbers written with equally many digits compare as text the way they compare as numbers. */
  lemma {:induction false} LexIsNumeric(s: string, t: string)
    requires Digits(s) && Digits(t) && |s| == |t|
    ensures LexLess(s, t) <==> Value(s) < Value(t)
    ensures s == t <==> Value(s) == Value(t)
  {
    if s != [] {
      var n := |s| - 1;
      LexIsNumeric(s[..n], t[..n]);
      assert s == s[..n] + [s[n]] && t == t[..n] + [t[n]];
      LexConcat(s[..n], [s[n]], t[..n], [t[n]]);
    }
  }

  function Flatten<T>(parts: seq<seq<T>>): seq<T> {
    if parts == [] then [] else Flatten(parts[..|parts| - 1]) + parts[|parts| - 1]
  }

  // ----- two of a character in a row

  predicate DoubleAt(s: string, c: char, i: nat) {
    i + 2 <= |s| && s[i] == s[i + 1] == c
  }

  /** Where `c` first stands twice in a row. */
  function FirstDouble(s: string, c: char): (at: Option<nat>)
    ensures at.Some? ==> DoubleAt(s, c, at.value) && forall i: nat :: i < at.value ==> !DoubleAt(s, c, i)
    ensures at.None? ==> forall i: nat :: !DoubleAt(s, c, i)
  {
    DoubleAfter(s, c);
    if |s| < 2 then None
    else if s[0] == s[1] == c then Some(0)
    else match FirstDouble(s[1..], c) case None => None case Some(i) => Some(i + 1)
  }

  lemma {:induction false} DoubleAfter(s: string, c: char)
    ensures forall i: nat :: 0 < i && |s| > 0 ==> (DoubleAt(s, c, i) <==> DoubleAt(s[1..], c, i - 1))
  {
  }

  // ----- cutting text at a separator

  lemma {:induction false} Regroup<T>(a: seq<T>, b: seq<T>, c: seq<T>)
    ensures a + (b + c) == (a + b) + c
  {
  }

  /** The pieces between separators; the last one is what follows the last separator. */
  function Split<T(==)>(s: seq<T>, sep: T): (pieces: seq<seq<T>>)
    ensures pieces != []
  {
    if s == [] then [[]]
    else if s[0] == sep then [[]] + Split(s[1..], sep)
    else
      var rest := Split(s[1..], sep);
      [[s[0]] + rest[0]] + rest[1..]
  }

  function Join<T>(pieces: seq<seq<T>>, sep: T): seq<T> {
    if pieces == [] then []
    else if |pieces| == 1 then pieces[0]
    else pieces[0] + [sep] + Join(pieces[1..], sep)
  }

  lemma {:induction false} SplitAtFirst<T>(a: seq<T>, sep: T, b: seq<T>)
    requires sep !in a
    ensures Split(a + [sep] + b, sep) == [a] + Split(b, sep)
  {
    var s := a + [sep] + b;
    if a == [] {
      assert s[1..] == b;
    } else {
      assert s[1..] == a[1..] + [sep] + b;
      SplitAtFirst(a[1..], sep, b);
      assert [a[0]] + a[1..] == a;
    }
  }

  lemma {:induction false} SplitPlain<T>(a: seq<T>, sep: T)
    requires sep !in a
    ensures Split(a, sep) == [a]
  {
    if a != [] {
      SplitPlain(a[1..], sep);
      assert [a[0]] + a[1..] == a;
    }
  }

  lemma {:induction false} SplitJoin<T>(s: seq<T>, sep: T)
    ensures Join(Split(s, sep), sep) == s
    ensures forall i :: 0 <= i < |Split(s, sep)| ==> sep !in Split(s, sep)[i]
  {
    if s != [] {
      var rest := Split(s[1..], sep);
      SplitJoin(s[1..], sep);
      if s[0] == sep {
        assert ([[]] + rest)[1..] == rest;
      } else {
        assert ([[s[0]] + rest[0]] + rest[1..])[1..] == rest[1..];
      }
      assert s == [s[0]] + s[1..];
    }
  }

  /** Two cut texts glued together: the pieces that meet become one. */
  function Glue<T>(p: seq<seq<T>>, q: seq<seq<T>>): seq<seq<T>>
    requires p != [] && q != []
  {
    p[..|p| - 1] + [p[|p| - 1] + q[0]] + q[1..]
  }

  /** Cutting a longer text only extends the last piece and adds pieces after it. */
  lemma {:induction false} SplitConcat<T>(a: seq<T>, b: seq<T>, sep: T)
    ensures Split(a + b, sep) == Glue(Split(a, sep), Split(b, sep))
    decreases |a|
  {
    var q := Split(b, sep);
    if a == [] {
      assert a + b == b && [] + q[0] == q[0];
    } else {
      SplitConcat(a[1..], b, sep);
      assert (a + b)[1..] == a[1..] + b;
      if a[0] == sep {
        GlueAfter([], Split(a[1..], sep), q);
      } else {
        GlueInto(a[0], Split(a[1..], sep), q);
      }
    }
  }

  lemma {:induction false} GlueAfter<T>(x: seq<T>, r: seq<seq<T>>, q: seq<seq<T>>)
    requires r != [] && q != []
    ensures [x] + Glue(r, q) == Glue([x] + r, q)
  {
    assert ([x] + r)[..|r|] == [x] + r[..|r| - 1];
  }

  lemma {:induction false} GlueInto<T>(c: T, r: seq<seq<T>>, q: seq<seq<T>>)
    requires r != [] && q != []
    ensures var g := Glue(r, q); [[c] + g[0]] + g[1..] == Glue([[c] + r[0]] + r[1..], q)
  {
    var g, h := Glue(r, q), [[c] + r[0]] + r[1..];
    if |r| == 1 {
      assert [c] + (r[0] + q[0]) == ([c] + r[0]) + q[0];
    } else {
      assert h[..|h| - 1] == [[c] + r[0]] + r[1..|r| - 1];
      assert g[1..] == r[1..|r| - 1] + [r[|r| - 1] + q[0]] + q[1..];
    }
  }
}
