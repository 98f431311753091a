/** Printed timestamps and day keys, and the energy log's window over day keys. */
module Timestamps {
  import opened Text
  import opened Calendar

  /** A number printed with at least `width` digits, and the text after it. */
  datatype Field = Field(n: nat, width: nat, after: string)

  function Print(fields: seq<Field>): string {
    if fields == [] then ""
    else Padded(fields[0].n, fields[0].width) + (fields[0].after + Print(fields[1..]))
  }

  function DateFields(date: Date, after: string): seq<Field>
    requires date.y >= 0 && ValidDate(date)
  {
    [Field(date.y, 4, "-"), Field(date.m, 2, "-"), Field(date.d, 2, after)]
  }

  /** The key of day number `n`. */
  function DayKey(n: nat): string {
    DaysOfCivil(n);
    Print(DateFields(CivilFromDays(n), ""))
  }

  /** The calendar-day bucket of a millisecond timestamp. */
  function DayString(ms: nat): string {
    DayKey(ms / 1000 / 86_400)
  }

  function IsoFields(ms: nat): seq<Field> {
    var secs := ms / 1000;
    var msPart := ms % 1000;
    var rem := secs % 86_400;
    DaysOfCivil(secs / 86_400);
    DateFields(CivilFromDays(secs / 86_400), "T") +
    [Field(rem / 3600, 2, ":"), Field((rem % 3600) / 60, 2, ":"), Field(rem % 60, 2, "."), Field(msPart, 3, "Z")]
  }

  /** The timestamp in the shape of section 5.6 of RFC 3339, always in UTC. */
  function IsoText(ms: nat): string {
    Print(IsoFields(ms))
  }

  // ----- order of printed fields

  ghost predicate SameShape(a: seq<Field>, b: seq<Field>) {
    && |a| == |b|
    && forall i :: 0 <= i < |a| ==> a[i].width == b[i].width >= 1 && a[i].after == b[i].after
  }

  ghost predicate Fits(a: seq<Field>) {
    forall i :: 0 <= i < |a| ==> a[i].n < Pow10(a[i].width)
  }

  ghost predicate LessAt(a: seq<Field>, b: seq<Field>, k: nat)
    requires |a| == |b|
  {
    k < |a| && a[k].n < b[k].n && forall j :: 0 <= j < k ==> a[j].n == b[j].n
  }

  /** The first number that differs is smaller. */
  ghost predicate FieldsLess(a: seq<Field>, b: seq<Field>)
    requires |a| == |b|
  {
    exists k: nat :: LessAt(a, b, k)
  }

  lemma {:induction false} LessIsAsymmetric(a: seq<Field>, b: seq<Field>)
    requires |a| == |b| && FieldsLess(a, b)
    ensures !FieldsLess(b, a) && a != b
  {
    var k: nat :| LessAt(a, b, k);
    forall j: nat
      ensures !LessAt(b, a, j)
    {
      if j < k && j < |a| {
        assert a[j].n == b[j].n;
      }
    }
  }

  lemma {:induction false} FieldsLessStep(a: seq<Field>, b: seq<Field>)
    requires |a| == |b| > 0
    ensures FieldsLess(a, b) <==> a[0].n < b[0].n || (a[0].n == b[0].n && FieldsLess(a[1..], b[1..]))
  {
    if FieldsLess(a, b) && a[0].n == b[0].n {
      var k: nat :| LessAt(a, b, k);
      assert LessAt(a[1..], b[1..], k - 1);
    }
    if a[0].n < b[0].n {
      assert LessAt(a, b, 0);
    } else if a[0].n == b[0].n && FieldsLess(a[1..], b[1..]) {
      var k: nat :| LessAt(a[1..], b[1..], k);
      forall j | 0 <= j < k + 1
        ensures a[j].n == b[j].n
      {
        if j > 0 { assert a[1..][j - 1] == a[j] && b[1..][j - 1] == b[j]; }
      }
      assert LessAt(a, b, k + 1);
    }
  }

  /** Text made of equally wide fields sorts by its numbers. */
  lemma {:induction false} PrintOrder(a: seq<Field>, b: seq<Field>)
    requires SameShape(a, b) && Fits(a) && Fits(b)
    ensures |Print(a)| == |Print(b)|
    ensures LexLess(Print(a), Print(b)) <==> FieldsLess(a, b)
    ensures Print(a) == Print(b) <==> a == b
    decreases |a|
  {
    if a != [] {
      PrintOrder(a[1..], b[1..]);
      PrintOrderStep(a, b, Print(a[1..]), Print(b[1..]));
    }
  }

  lemma {:induction false} PrintOrderStep(a: seq<Field>, b: seq<Field>, s: string, t: string)
    requires SameShape(a, b) && Fits(a) && Fits(b) && a != []
    requires |s| == |t| && (LexLess(s, t) <==> FieldsLess(a[1..], b[1..])) && (s == t <==> a[1..] == b[1..])
    ensures var x, y := Padded(a[0].n, a[0].width) + (a[0].after + s), Padded(b[0].n, b[0].width) + (b[0].after + t);
            |x| == |y| && (LexLess(x, y) <==> FieldsLess(a, b)) && (x == y <==> a == b)
  {
    FieldsLessStep(a, b);
    OneField(a[0], b[0], s, t);
    assert a == [a[0]] + a[1..] && b == [b[0]] + b[1..];
  }

  lemma {:induction false} OneField(f: Field, g: Field, s: string, t: string)
    requires f.width == g.width >= 1 && f.after == g.after && |s| == |t|
    requires f.n < Pow10(f.width) && g.n < Pow10(g.width)
    ensures var x, y := Padded(f.n, f.width) + (f.after + s), Padded(g.n, g.width) + (g.after + t);
            && |x| == |y|
            && (LexLess(x, y) <==> f.n < g.n || (f.n == g.n && LexLess(s, t)))
            && (x == y <==> f.n == g.n && s == t)
  {
    PaddedNumber(f.n, f.width);
    PaddedNumber(g.n, g.width);
    Joined(Padded(f.n, f.width), Padded(g.n, g.width), f.after, s, t);
  }

  lemma {:induction false} Joined(p: string, q: string, mid: string, s: string, t: string)
    requires Digits(p) && Digits(q) && |p| == |q| && |s| == |t|
    ensures LexLess(p + (mid + s), q + (mid + t)) <==> Value(p) < Value(q) || (Value(p) == Value(q) && LexLess(s, t))
    ensures p + (mid + s) == q + (mid + t) <==> Value(p) == Value(q) && s == t
  {
    LexIsNumeric(p, q);
    LexConcat(p, mid + s, q, mid + t);
    LexConcat(mid, s, mid, t);
    LexIrreflexive(mid);
    if p + (mid + s) == q + (mid + t) {
      assert (p + (mid + s))[..|p|] == p && (q + (mid + t))[..|q|] == q;
      assert (p + (mid + s))[|p| + |mid|..] == s && (q + (mid + t))[|p| + |mid|..] == t;
    }
  }

  lemma {:induction false} LexIrreflexive(s: string)
    ensures !LexLess(s, s)
  {
    if s != [] { LexIrreflexive(s[1..]); }
  }

  lemma {:induction false} Powers()
    ensures Pow10(2) == 100 && Pow10(3) == 1000 && Pow10(4) == 10_000
  {
    assert Pow10(1) == 10;
    assert Pow10(2) == 100;
    assert Pow10(3) == 1000;
  }

  // ----- day keys

  lemma {:induction false} DateFieldsOrder(x: Date, y: Date, after: string)
    requires x.y >= 0 && y.y >= 0 && ValidDate(x) && ValidDate(y)
    ensures Earlier(x, y) ==> FieldsLess(DateFields(x, after), DateFields(y, after))
  {
    var a, b := DateFields(x, after), DateFields(y, after);
    if Earlier(x, y) {
      assert LessAt(a, b, if x.y < y.y then 0 else if x.m < y.m then 1 else 2);
    }
  }

  const FIRST_DAY_OF_10000 := 2_932_897

  lemma {:induction false} TurnOfTheMillennium()
    ensures CivilFromDays(FIRST_DAY_OF_10000 - 1) == Date(9_999, 12, 31) &&
            CivilFromDays(FIRST_DAY_OF_10000) == Date(10_000, 1, 1)
  {
    Located(FIRST_DAY_OF_10000 - 1, 24, 399, 305);
    Located(FIRST_DAY_OF_10000, 24, 399, 306);
  }

  lemma {:induction false} FourDigitYears(n: nat)
    ensures n < FIRST_DAY_OF_10000 <==> CivilFromDays(n).y <= 9999
  {
    TurnOfTheMillennium();
    DatesInOrder(n, FIRST_DAY_OF_10000);
    DaysOfCivil(n);
  }

  /** Through year 9999 day keys sort by date. */
  lemma {:induction false} DayKeysInOrder(a: nat, b: nat)
    requires a < FIRST_DAY_OF_10000 && b < FIRST_DAY_OF_10000
    ensures LexLess(DayKey(a), DayKey(b)) <==> a < b
    ensures DayKey(a) == DayKey(b) <==> a == b
  {
    var x, y := CivilFromDays(a), CivilFromDays(b);
    FourDigitYears(a);
    FourDigitYears(b);
    DaysOfCivil(a);
    DaysOfCivil(b);
    DatesInOrder(a, b);
    DatesInOrder(b, a);
    Powers();
    var f, g := DateFields(x, ""), DateFields(y, "");
    PrintOrder(f, g);
    if a < b {
      DateFieldsOrder(x, y, "");
      LessIsAsymmetric(f, g);
    } else if b < a {
      DateFieldsOrder(y, x, "");
      LessIsAsymmetric(g, f);
    }
  }

  /** Up to day n, the text order of the keys is the order of the days. */
  ghost predicate KeysSort(n: nat) {
    forall a: nat, b: nat :: a <= n && b <= n ==> (LexLess(DayKey(a), DayKey(b)) <==> a < b)
  }

  /** And that is exactly how far it goes. */
  lemma {:induction false} DayKeysSortIff(n: nat)
    ensures KeysSort(n) <==> CivilFromDays(n).y <= 9999
  {
    FourDigitYears(n);
    if n < FIRST_DAY_OF_10000 {
      forall a: nat, b: nat | a <= n && b <= n
        ensures LexLess(DayKey(a), DayKey(b)) <==> a < b
      {
        DayKeysInOrder(a, b);
      }
    } else {
      var a, b := FIRST_DAY_OF_10000 - 1, FIRST_DAY_OF_10000;
      TurnOfTheMillennium();
      FirstCharacters();
      assert !(LexLess(DayKey(a), DayKey(b)) <==> a < b);
    }
  }

  lemma {:induction false} FirstCharacters()
    ensures Padded(9999, 4)[0] == '9' && Padded(10_000, 4)[0] == '1'
  {
    assert Decimal(9999)[0] == Decimal(999)[0] == Decimal(99)[0] == Decimal(9)[0] == '9';
    assert Decimal(10_000)[0] == Decimal(1000)[0] == Decimal(100)[0] == Decimal(10)[0] == Decimal(1)[0] == '1';
    Powers();
    DecimalLength(9999, 3);
    DecimalLength(10_000, 4);
  }

  // ----- timestamps

  /** What the fields of a timestamp say about the millisecond. */
  ghost predicate Stamp(f: seq<Field>, ms: nat) {
    var date := CivilFromDays(ms / 86_400_000);
    && |f| == 7
    && date.y >= 1970 && ValidDate(date) && f[..3] == DateFields(date, "T")
    && Clock(f[3].n, f[4].n, f[5].n, f[6].n) == ms % 86_400_000
    && f[3].n < 24 && f[4].n < 60 && f[5].n < 60 && f[6].n < 1000
    && f[3].width == f[4].width == f[5].width == 2 && f[6].width == 3
    && f[3].after == f[4].after == ":" && f[5].after == "." && f[6].after == "Z"
  }

  function Clock(h: nat, m: nat, s: nat, u: nat): nat {
    ((h * 60 + m) * 60 + s) * 1000 + u
  }

  lemma {:induction false} IsoStamp(ms: nat)
    ensures Stamp(IsoFields(ms), ms)
  {
    var secs := ms / 1000;
    DaysOfCivil(secs / 86_400);
    SplitClock(ms);
    assert IsoFields(ms)[..3] == DateFields(CivilFromDays(secs / 86_400), "T");
  }

  lemma {:induction false} SplitClock(ms: nat)
    ensures ms / 1000 / 86_400 == ms / 86_400_000
    ensures var rem := ms / 1000 % 86_400;
            Clock(rem / 3600, (rem % 3600) / 60, rem % 60, ms % 1000) == ms % 86_400_000 && rem / 3600 < 24
  {
    var rem := ms / 1000 % 86_400;
    assert rem == 60 * (60 * (rem / 3600) + (rem % 3600) / 60) + rem % 60;
    assert ms % 86_400_000 == 1000 * rem + ms % 1000;
  }

  lemma {:induction false} StampsForward(f: seq<Field>, a: nat, g: seq<Field>, b: nat)
    requires Stamp(f, a) && Stamp(g, b) && a < b
    ensures FieldsLess(f, g)
  {
    var m, n := a / 86_400_000, b / 86_400_000;
    if m < n {
      DatesInOrder(m, n);
      DateFieldsOrder(CivilFromDays(m), CivilFromDays(n), "T");
      var k: nat :| LessAt(f[..3], g[..3], k);
      LessPrefix(f, g, 3, k);
    } else {
      LaterField(f[3].n, f[4].n, f[5].n, f[6].n, g[3].n, g[4].n, g[5].n, g[6].n);
      ClockFieldsLess(f, g);
    }
  }

  lemma {:induction false} ClockFieldsLess(f: seq<Field>, g: seq<Field>)
    requires |f| == |g| == 7 && f[..3] == g[..3]
    requires f[3].n < g[3].n ||
             (f[3].n == g[3].n &&
             (f[4].n < g[4].n || (f[4].n == g[4].n && (f[5].n < g[5].n || (f[5].n == g[5].n && f[6].n < g[6].n)))))
    ensures FieldsLess(f, g)
  {
    var k: nat := if f[3].n < g[3].n then 3 else if f[4].n < g[4].n then 4 else if f[5].n < g[5].n then 5 else 6;
    forall j | 0 <= j < 3 ensures f[j].n == g[j].n { assert f[..3][j] == g[..3][j]; }
    assert LessAt(f, g, k);
  }

  lemma {:induction false} LessPrefix(f: seq<Field>, g: seq<Field>, p: nat, k: nat)
    requires |f| == |g| && p <= |f| && LessAt(f[..p], g[..p], k)
    ensures FieldsLess(f, g)
  {
    forall j | 0 <= j < k ensures f[j].n == g[j].n { assert f[..p][j].n == g[..p][j].n; }
    assert LessAt(f, g, k);
  }

  lemma {:induction false} LaterField(h: nat, m: nat, s: nat, u: nat, h': nat, m': nat, s': nat, u': nat)
    requires m < 60 && s < 60 && u < 1000 && m' < 60 && s' < 60 && u' < 1000
    requires Clock(h, m, s, u) < Clock(h', m', s', u')
    ensures h < h' || (h == h' && (m < m' || (m == m' && (s < s' || (s == s' && u < u')))))
  {
  }

  lemma {:induction false} StampsDecide(f: seq<Field>, a: nat, g: seq<Field>, b: nat)
    requires Stamp(f, a) && Stamp(g, b)
    ensures FieldsLess(f, g) ==> a < b || (a == b && f != g)
    ensures f == g ==> a == b
    ensures a < b ==> FieldsLess(f, g)
  {
    if a < b {
      StampsForward(f, a, g, b);
      LessIsAsymmetric(f, g);
    } else if b < a {
      StampsForward(g, b, f, a);
      LessIsAsymmetric(g, f);
    } else if FieldsLess(f, g) {
      LessIsAsymmetric(f, g);
    }
  }

  lemma {:induction false} StampFits(f: seq<Field>, ms: nat)
    requires Stamp(f, ms)
    ensures Fits(f[1..]) && (CivilFromDays(ms / 86_400_000).y <= 9999 ==> Fits(f))
  {
    Powers();
    assert f[0] == f[..3][0] && f[1] == f[..3][1] && f[2] == f[..3][2];
  }

  lemma {:induction false} StampShapes(f: seq<Field>, a: nat, g: seq<Field>, b: nat)
    requires Stamp(f, a) && Stamp(g, b)
    ensures SameShape(f, g)
  {
    assert forall i :: 0 <= i < 3 ==> f[i] == f[..3][i] && g[i] == g[..3][i];
  }

  /** Through year 9999 timestamps have one length and sort by time. */
  lemma {:induction false} IsoTextsInOrder(a: nat, b: nat)
    requires a / 86_400_000 < FIRST_DAY_OF_10000 && b / 86_400_000 < FIRST_DAY_OF_10000
    ensures |IsoText(a)| == |IsoText(b)|
    ensures LexLess(IsoText(a), IsoText(b)) <==> a < b
  {
    IsoStamp(a);
    IsoStamp(b);
    StampedTexts(IsoFields(a), a, IsoFields(b), b);
    LexIrreflexive(IsoText(a));
  }

  lemma {:induction false} StampedTexts(f: seq<Field>, a: nat, g: seq<Field>, b: nat)
    requires Stamp(f, a) && Stamp(g, b)
    requires a / 86_400_000 < FIRST_DAY_OF_10000 && b / 86_400_000 < FIRST_DAY_OF_10000
    ensures |Print(f)| == |Print(g)|
    ensures a != b ==> (LexLess(Print(f), Print(g)) <==> a < b)
  {
    FourDigitYears(a / 86_400_000);
    FourDigitYears(b / 86_400_000);
    StampFits(f, a);
    StampFits(g, b);
    StampShapes(f, a, g, b);
    PrintOrder(f, g);
    StampsDecide(f, a, g, b);
  }

  /** The printed timestamp determines the millisecond, in every year. */
  lemma {:induction false} IsoTextIsInjective(a: nat, b: nat)
    ensures IsoText(a) == IsoText(b) <==> a == b
  {
    IsoStamp(a);
    IsoStamp(b);
    if IsoText(a) == IsoText(b) {
      SameStamp(IsoFields(a), a, IsoFields(b), b);
    }
  }

  lemma {:induction false} SameStamp(f: seq<Field>, a: nat, g: seq<Field>, b: nat)
    requires Stamp(f, a) && Stamp(g, b) && Print(f) == Print(g)
    ensures a == b
  {
    StampFits(f, a);
    StampFits(g, b);
    StampShapes(f, a, g, b);
    PrintOrder(f[1..], g[1..]);
    YearField(f[0], g[0], Print(f[1..]), Print(g[1..]));
    assert f == [f[0]] + f[1..] && g == [g[0]] + g[1..];
    StampsDecide(f, a, g, b);
  }

  /** A leading year of any width is found from the length of what follows it. */
  lemma {:induction false} YearField(f: Field, g: Field, s: string, t: string)
    requires f.width == g.width >= 1 && f.after == g.after && |s| == |t|
    requires Padded(f.n, f.width) + (f.after + s) == Padded(g.n, g.width) + (g.after + t)
    ensures f == g && s == t
  {
    PaddedNumber(f.n, f.width);
    PaddedNumber(g.n, g.width);
    Joined(Padded(f.n, f.width), Padded(g.n, g.width), f.after, s, t);
  }

  // ----- the energy window

  /** The logged days from the cutoff to today, compared as text. */
  function EnergyByDay(log: map<string, real>, cutoffDay: string, today: string): map<string, real> {
    map day | day in log && LexAtMost(cutoffDay, day) && LexAtMost(day, today) :: log[day]
  }

  /** Text comparison keeps exactly the days between the two instants. */
  lemma {:induction false} EnergyWindowIsChronological(log: map<string, real>, cutoffMs: nat, nowMs: nat, n: nat)
    requires cutoffMs / 1000 / 86_400 < FIRST_DAY_OF_10000 && nowMs / 1000 / 86_400 < FIRST_DAY_OF_10000
    requires n < FIRST_DAY_OF_10000
    ensures var kept := EnergyByDay(log, DayString(cutoffMs), DayString(nowMs));
            && (DayKey(n) in kept <==> DayKey(n) in log && cutoffMs / 1000 / 86_400 <= n <= nowMs / 1000 / 86_400)
            && (DayKey(n) in kept ==> kept[DayKey(n)] == log[DayKey(n)])
  {
    DayKeysInOrder(cutoffMs / 1000 / 86_400, n);
    DayKeysInOrder(n, nowMs / 1000 / 86_400);
  }
}
