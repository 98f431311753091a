/** What printed timestamps and day keys say: read back, they give the instant and the day. */
module TimestampTexts {
  import opened Text
  import opened Calendar
  import opened Timestamps

  /** A number in at least `width` digits. */
  predicate Shows(s: string, n: nat, width: nat) {
    Digits(s) && Value(s) == n && |s| >= width
  }

  lemma {:induction false} PaddedShows(n: nat, width: nat)
    requires width >= 1
    ensures Shows(Padded(n, width), n, width) && (n < Pow10(width) ==> |Padded(n, width)| == width)
  {
    PaddedNumber(n, width);
  }

  /** A valid date, its year in at least four digits, its month and day in two. */
  predicate ShowsDate(y: string, m: string, d: string, date: Date) {
    && date.y >= 0 && Shows(y, date.y, 4)
    && date.m >= 0 && Shows(m, date.m, 2) && |m| == 2
    && date.d >= 0 && Shows(d, date.d, 2) && |d| == 2
  }

  lemma {:induction false} DateShows(date: Date)
    requires date.y >= 0 && ValidDate(date)
    ensures ShowsDate(Padded(date.y, 4), Padded(date.m, 2), Padded(date.d, 2), date)
  {
    Powers();
    PaddedShows(date.y, 4);
    PaddedShows(date.m, 2);
    PaddedShows(date.d, 2);
  }

  /** A day key is the date of the day with dashes: the day's number is the count of days before that date. */
  lemma {:induction false} DayKeyReads(n: nat) returns (y: string, m: string, d: string, date: Date)
    ensures DayKey(n) == y + ("-" + (m + ("-" + d))) && ShowsDate(y, m, d, date)
    ensures ValidDate(date) && date.y >= 1970 && DaysFromCivil(date) == n
  {
    DaysOfCivil(n);
    date := CivilFromDays(n);
    DateShows(date);
    y, m, d := Padded(date.y, 4), Padded(date.m, 2), Padded(date.d, 2);
    PrintDay(date, []);
  }

  lemma {:induction false} PrintDay(date: Date, rest: seq<Field>)
    requires date.y >= 0 && ValidDate(date) && rest == []
    ensures Print(DateFields(date, "")) == Padded(date.y, 4) + ("-" + (Padded(date.m, 2) + ("-" + Padded(date.d, 2))))
  {
    var y, m, d := Field(date.y, 4, "-"), Field(date.m, 2, "-"), Field(date.d, 2, "");
    PrintEnd(d, rest);
    PrintOne(m, [d] + rest);
    PrintOne(y, [m] + ([d] + rest));
    assert DateFields(date, "") == [y] + ([m] + ([d] + rest));
    assert Padded(date.d, 2) + "" == Padded(date.d, 2);
  }

  /** One field, and what follows it. */
  lemma {:induction false} PrintOne(f: Field, fields: seq<Field>)
    ensures Print([f] + fields) == Padded(f.n, f.width) + (f.after + Print(fields))
  {
    var all := [f] + fields;
    assert all[0] == f && all[1..] == fields;
  }

  lemma {:induction false} PrintThree(a: Field, b: Field, c: Field, rest: seq<Field>)
    ensures Print([a, b, c] + rest) ==
            Padded(a.n, a.width) + (a.after + (Padded(b.n, b.width) + (b.after + (Padded(c.n, c.width) +
            (c.after + Print(rest))))))
  {
    PrintOne(c, rest);
    PrintOne(b, [c] + rest);
    PrintOne(a, [b] + ([c] + rest));
    assert [a, b, c] + rest == [a] + ([b] + ([c] + rest));
  }

  /** No field prints as nothing, so the last text is what follows the last number. */
  lemma {:induction false} PrintEnd(f: Field, rest: seq<Field>)
    requires rest == []
    ensures Print([f] + rest) == Padded(f.n, f.width) + f.after && Print(rest) == ""
  {
    PrintOne(f, rest);
  }

  /** The time of day, its parts in two digits and the milliseconds in three. */
  predicate ShowsTime(h: string, mi: string, s: string, u: string, time: nat) {
    && Digits(h) && Digits(mi) && Digits(s) && Digits(u) && |h| == |mi| == |s| == 2 && |u| == 3
    && Value(h) < 24 && Value(mi) < 60 && Value(s) < 60
    && time == ((Value(h) * 60 + Value(mi)) * 60 + Value(s)) * 1000 + Value(u)
  }

  lemma {:induction false} TimeShows(secs: nat, u: nat)
    requires secs < 86_400 && u < 1000
    ensures ShowsTime(Padded(secs / 3600, 2), Padded(secs % 3600 / 60, 2), Padded(secs % 60, 2), Padded(u, 3),
                      secs * 1000 + u)
  {
    Powers();
    PaddedShows(secs / 3600, 2);
    PaddedShows(secs % 3600 / 60, 2);
    PaddedShows(secs % 60, 2);
    PaddedShows(u, 3);
    assert secs == secs / 3600 * 3600 + secs % 3600 / 60 * 60 + secs % 60;
  }

  /** A timestamp is the day key and the time of its millisecond in the usual punctuation: read back, they give it
      exactly. */
  lemma {:induction false} IsoReads(ms: nat)
    returns (clock: string, h: string, mi: string, s: string, u: string, time: nat)
    ensures IsoText(ms) == DayString(ms) + ("T" + clock)
    ensures clock == h + (":" + (mi + (":" + (s + ("." + (u + "Z"))))))
    ensures ShowsTime(h, mi, s, u, time) && ms == ms / 1000 / 86_400 * 86_400_000 + time
  {
    var rem := ms / 1000 % 86_400;
    TimeShows(rem, ms % 1000);
    h, mi, s, u := Padded(rem / 3600, 2), Padded(rem % 3600 / 60, 2), Padded(rem % 60, 2), Padded(ms % 1000, 3);
    time := rem * 1000 + ms % 1000;
    var f := IsoFields(ms)[3..];
    ClockFields(ms, rem, f);
    clock := DayThenClock(ms, f[0], f[1], f[2], f[3]);
  }

  lemma {:induction false} ClockFields(ms: nat, rem: nat, f: seq<Field>)
    requires rem == ms / 1000 % 86_400 && f == IsoFields(ms)[3..]
    ensures |f| == 4 && f[0] == Field(rem / 3600, 2, ":") && f[1] == Field((rem % 3600) / 60, 2, ":")
    ensures f[2] == Field(rem % 60, 2, ".") && f[3] == Field(ms % 1000, 3, "Z")
  {
  }

  lemma {:induction false} DayThenClock(ms: nat, h: Field, m: Field, s: Field, u: Field) returns (clock: string)
    requires IsoFields(ms)[3..] == [h, m, s, u]
    ensures IsoText(ms) == DayString(ms) + ("T" + clock)
    ensures clock == Padded(h.n, h.width) + (h.after + (Padded(m.n, m.width) + (m.after + (Padded(s.n, s.width) +
                     (s.after + (Padded(u.n, u.width) + u.after))))))
  {
    var n := ms / 1000 / 86_400;
    clock := Print([h, m, s, u]);
    ClockText(h, m, s, u);
    DaysOfCivil(n);
    DayThenRest(CivilFromDays(n), "T", [h, m, s, u]);
    assert IsoFields(ms) == DateFields(CivilFromDays(n), "T") + IsoFields(ms)[3..];
  }

  lemma {:induction false} ClockText(h: Field, m: Field, s: Field, u: Field)
    ensures Print([h, m, s, u]) ==
            Padded(h.n, h.width) + (h.after + (Padded(m.n, m.width) + (m.after + (Padded(s.n, s.width) +
            (s.after + (Padded(u.n, u.width) + u.after))))))
  {
    PrintThree(h, m, s, [u] + []);
    PrintEnd(u, []);
    assert [h, m, s, u] == [h, m, s] + ([u] + []);
  }

  /** The date reads the same whatever follows it. */
  lemma {:induction false} DayThenRest(date: Date, after: string, rest: seq<Field>)
    requires date.y >= 0 && ValidDate(date)
    ensures Print(DateFields(date, after) + rest) == Print(DateFields(date, "")) + (after + Print(rest))
  {
    var f := DateFields(date, after);
    PrintThree(f[0], f[1], f[2], rest);
    PrintDay(date, []);
    Regroup(Padded(date.y, 4), "-", Padded(date.m, 2), Padded(date.d, 2), after + Print(rest));
    assert [f[0], f[1], f[2]] + rest == f + rest;
  }

  lemma {:induction false} Regroup(y: string, dash: string, m: string, d: string, t: string)
    ensures y + (dash + (m + (dash + (d + t)))) == (y + (dash + (m + (dash + d)))) + t
  {
    assert m + (dash + (d + t)) == (m + (dash + d)) + t;
  }
}
