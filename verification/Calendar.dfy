/** Day numbers and calendar dates: the closed-form conversion is the proleptic Gregorian calendar. */
module Calendar {

  datatype Date = Date(y: int, m: int, d: int)

  /** Days since 1970-01-01 to a date. Years are counted from March within 400-year eras. */
  function CivilFromDays(days: nat): Date {
    var z := days + 719_468;
    var era := (if z >= 0 then z else z - 146_096) / 146_097;
    var doe := z - era * 146_097;
    var yoe := YearOfEra(doe);
    var doy := doe - YearStart(yoe);
    DateInYear(yoe + era * 400, doy)
  }

  /** A date from its place in the year that starts in March of year `y`. */
  function DateInYear(y: int, doy: int): Date {
    var mp := (5 * doy + 2) / 153;
    var d := doy - (153 * mp + 2) / 5 + 1;
    var m := mp + if mp < 10 then 3 else -9;
    Date(y + if m <= 2 then 1 else 0, m, d)
  }

  function YearOfEra(doe: int): int {
    (doe - doe / 1460 + doe / 36_524 - doe / 146_096) / 365
  }

  function YearStart(yoe: int): int {
    365 * yoe + yoe / 4 - yoe / 100
  }

  // ----- the calendar itself

  predicate IsLeap(y: int) {
    y % 4 == 0 && (y % 100 != 0 || y % 400 == 0)
  }

  function MonthLength(y: int, m: int): int {
    if m == 2 then (if IsLeap(y) then 29 else 28)
    else if m == 4 || m == 6 || m == 9 || m == 11 then 30
    else 31
  }

  function YearDays(y: int): nat {
    if IsLeap(y) then 366 else 365
  }

  predicate ValidDate(date: Date) {
    1 <= date.m <= 12 && 1 <= date.d <= MonthLength(date.y, date.m)
  }

  function NextDay(date: Date): Date {
    if date.d < MonthLength(date.y, date.m) then date.(d := date.d + 1)
    else if date.m < 12 then Date(date.y, date.m + 1, 1)
    else Date(date.y + 1, 1, 1)
  }

  const EPOCH := Date(1970, 1, 1)

  /** The date reached by turning `n` calendar pages from the epoch. */
  function PagesTurned(n: nat): Date {
    if n == 0 then EPOCH else NextDay(PagesTurned(n - 1))
  }

  // ----- the era arithmetic

  /** The last year of an era is the only century year with a leap day at its end. */
  function YearEnd(yoe: int): int {
    if yoe == 399 then 146_097 else YearStart(yoe + 1)
  }

  /** c centuries, q four-year groups, y years and d days into the era. */
  predicate Parts(doe: int, c: nat, q: nat, y: nat, d: nat) {
    && c < 4 && q < 25 && y < 4 && d < (if y == 3 && (q < 24 || c == 3) then 366 else 365)
    && doe == 36_524 * c + 1461 * q + 365 * y + d
  }

  lemma {:induction false} YearOfParts(doe: nat, c: nat, q: nat, y: nat, d: nat)
    requires Parts(doe, c, q, y, d)
    ensures YearOfEra(doe) == 100 * c + 4 * q + y
  {
    assert doe / 36_524 - doe / 146_096 == c;
  }

  lemma {:induction false} StartOfParts(doe: nat, c: nat, q: nat, y: nat, d: nat)
    requires Parts(doe, c, q, y, d)
    ensures YearStart(100 * c + 4 * q + y) == doe - d
  {
  }

  lemma {:induction false} EndOfParts(doe: nat, c: nat, q: nat, y: nat, d: nat)
    requires Parts(doe, c, q, y, d)
    ensures doe < YearEnd(100 * c + 4 * q + y)
  {
    if y < 3 {
      StartOfParts(doe - d + 365, c, q, y + 1, 0);
    } else if q < 24 {
      StartOfParts(doe - d + 366, c, q + 1, 0, 0);
    } else if c < 3 {
      StartOfParts(doe - d + 365, c + 1, 0, 0, 0);
    }
  }

  lemma {:induction false} EraPosition(doe: nat)
    requires doe < 146_097
    ensures var yoe := YearOfEra(doe);
            0 <= yoe < 400 && YearStart(yoe) <= doe < YearEnd(yoe)
  {
    var c := if doe == 146_096 then 3 else doe / 36_524;
    var r := doe - 36_524 * c;
    var q := r / 1461;
    var s := r - 1461 * q;
    var y := if s == 1460 then 3 else s / 365;
    YearOfParts(doe, c, q, y, s - 365 * y);
    StartOfParts(doe, c, q, y, s - 365 * y);
    EndOfParts(doe, c, q, y, s - 365 * y);
  }

  /** Two years cannot both contain a day. */
  lemma {:induction false} YearIsUnique(doe: nat, a: int, b: int)
    requires 0 <= a < 400 && 0 <= b < 400
    requires YearStart(a) <= doe < YearEnd(a) && YearStart(b) <= doe < YearEnd(b)
    ensures a == b
  {
  }

  lemma {:induction false} SameRemainder(k: int, y: int, m: int)
    requires m == 4 || m == 100 || m == 400
    ensures (m * k + y) % m == y % m
  {
    assert (m * k + y) / m == k + y / m;
  }

  lemma {:induction false} LeapPeriod(era: int, y: int)
    ensures IsLeap(400 * era + y) == IsLeap(y)
  {
    SameRemainder(100 * era, y, 4);
    SameRemainder(4 * era, y, 100);
    SameRemainder(era, y, 400);
  }

  /** How long the March-based year is: it ends with the February of the next calendar year. */
  lemma {:induction false} YearLength(yoe: int, era: int)
    requires 0 <= yoe < 400
    ensures YearEnd(yoe) - YearStart(yoe) == YearDays(400 * era + yoe + 1)
  {
    LeapPeriod(era, yoe + 1);
    QuotientStep(yoe, 4);
    QuotientStep(yoe, 100);
    assert IsLeap(yoe + 1) <==> (yoe + 1) % 4 == 0 && ((yoe + 1) % 100 != 0 || yoe == 399);
  }

  lemma {:induction false} QuotientStep(n: nat, m: nat)
    requires m == 4 || m == 100
    ensures (n + 1) / m == n / m + if (n + 1) % m == 0 then 1 else 0
  {
  }

  lemma {:induction false} MonthSteps(y: int, doy: int)
    requires 0 <= doy < YearDays(y + 1)
    ensures ValidDate(DateInYear(y, doy))
    ensures doy + 1 < YearDays(y + 1) ==> DateInYear(y, doy + 1) == NextDay(DateInYear(y, doy))
    ensures doy + 1 == YearDays(y + 1) ==> DateInYear(y + 1, 0) == NextDay(DateInYear(y, doy))
  {
  }

  /** The same day located from its era. */
  lemma {:induction false} Located(days: nat, era: int, yoe: int, doy: int)
    requires days + 719_468 == 146_097 * era + YearStart(yoe) + doy
    requires 0 <= yoe < 400 && 0 <= doy && YearStart(yoe) + doy < YearEnd(yoe)
    ensures CivilFromDays(days) == DateInYear(400 * era + yoe, doy)
  {
    var doe := YearStart(yoe) + doy;
    assert 0 <= doe < 146_097;
    assert (days + 719_468) / 146_097 == era;
    EraPosition(doe);
    YearIsUnique(doe, yoe, YearOfEra(doe));
  }

  lemma {:induction false} Locate(days: nat) returns (era: int, yoe: int, doy: int)
    ensures days + 719_468 == 146_097 * era + YearStart(yoe) + doy
    ensures 0 <= yoe < 400 && 0 <= doy && YearStart(yoe) + doy < YearEnd(yoe)
  {
    era := (days + 719_468) / 146_097;
    var doe := days + 719_468 - 146_097 * era;
    EraPosition(doe);
    yoe := YearOfEra(doe);
    doy := doe - YearStart(yoe);
  }

  /** Every day has a valid date, and the next day has the next date. */
  lemma {:induction false} SuccessorDay(n: nat)
    ensures ValidDate(CivilFromDays(n))
    ensures CivilFromDays(n + 1) == NextDay(CivilFromDays(n))
  {
    var era, yoe, doy := Locate(n);
    Located(n, era, yoe, doy);
    NextPage(n, era, yoe, doy, CivilFromDays(n));
  }

  lemma {:induction false} NextPage(days: nat, era: int, yoe: int, doy: int, date: Date)
    requires days + 719_468 == 146_097 * era + YearStart(yoe) + doy
    requires 0 <= yoe < 400 && 0 <= doy && YearStart(yoe) + doy < YearEnd(yoe)
    requires date == DateInYear(400 * era + yoe, doy)
    ensures ValidDate(date) && CivilFromDays(days + 1) == NextDay(date)
  {
    var era', yoe', doy' := TurnPage(era, yoe, doy);
    Located(days + 1, era', yoe', doy');
  }

  lemma {:induction false} TurnPage(era: int, yoe: int, doy: int) returns (era': int, yoe': int, doy': int)
    requires 0 <= yoe < 400 && 0 <= doy && YearStart(yoe) + doy < YearEnd(yoe)
    ensures 0 <= yoe' < 400 && 0 <= doy' && YearStart(yoe') + doy' < YearEnd(yoe')
    ensures 146_097 * era' + YearStart(yoe') + doy' == 146_097 * era + YearStart(yoe) + doy + 1
    ensures var date := DateInYear(400 * era + yoe, doy);
            ValidDate(date) && DateInYear(400 * era' + yoe', doy') == NextDay(date)
  {
    YearLength(yoe, era);
    MonthSteps(400 * era + yoe, doy);
    if YearStart(yoe) + doy + 1 < YearEnd(yoe) {
      return era, yoe, doy + 1;
    } else if yoe < 399 {
      return era, yoe + 1, 0;
    } else {
      return era + 1, 0, 0;
    }
  }

  lemma {:induction false} EpochDay()
    ensures CivilFromDays(0) == EPOCH
  {
  }

  /** The closed form turns calendar pages from 1970-01-01. */
  lemma {:induction false} CivilIsCalendar(n: nat)
    ensures CivilFromDays(n) == PagesTurned(n) && ValidDate(CivilFromDays(n))
  {
    EpochDay();
    forall k: nat
      ensures CivilFromDays(k + 1) == NextDay(CivilFromDays(k))
    {
      SuccessorDay(k);
    }
    SuccessorDay(n);
    Iterates(CivilFromDays, n);
  }

  lemma {:induction false} Iterates(f: nat -> Date, n: nat)
    requires f(0) == EPOCH && forall k: nat :: f(k + 1) == NextDay(f(k))
    ensures f(n) == PagesTurned(n)
  {
    if n > 0 {
      Iterates(f, n - 1);
      assert f((n - 1) + 1) == NextDay(f(n - 1));
    }
  }

  // ----- the inverse, by counting

  function DaysBeforeYear(y: int): nat {
    if y <= 1970 then 0 else DaysBeforeYear(y - 1) + YearDays(y - 1)
  }

  function DaysBeforeMonth(y: int, m: int): nat {
    if m <= 1 then 0 else DaysBeforeMonth(y, m - 1) + MonthLength(y, m - 1)
  }

  function DaysFromCivil(date: Date): nat
    requires ValidDate(date)
  {
    DaysBeforeYear(date.y) + DaysBeforeMonth(date.y, date.m) + date.d - 1
  }

  predicate Earlier(a: Date, b: Date) {
    a.y < b.y || (a.y == b.y && (a.m < b.m || (a.m == b.m && a.d < b.d)))
  }

  lemma {:induction false} MonthsFillYear(y: int)
    ensures DaysBeforeMonth(y, 12) + 31 == YearDays(y)
  {
    var leap := if IsLeap(y) then 1 else 0;
    assert DaysBeforeMonth(y, 2) == 31;
    assert DaysBeforeMonth(y, 4) == 90 + leap;
    assert DaysBeforeMonth(y, 6) == 151 + leap;
    assert DaysBeforeMonth(y, 8) == 212 + leap;
    assert DaysBeforeMonth(y, 10) == 273 + leap;
  }

  lemma {:induction false} NextDayCounts(date: Date)
    requires ValidDate(date) && date.y >= 1970
    ensures ValidDate(NextDay(date)) && DaysFromCivil(NextDay(date)) == DaysFromCivil(date) + 1
  {
    MonthsFillYear(date.y);
  }

  lemma {:induction false} DaysOfPages(n: nat)
    ensures var date := PagesTurned(n); date.y >= 1970 && ValidDate(date) && DaysFromCivil(date) == n
  {
    if n > 0 {
      DaysOfPages(n - 1);
      NextDayCounts(PagesTurned(n - 1));
    }
  }

  lemma {:induction false} DaysOfCivil(n: nat)
    ensures CivilFromDays(n).y >= 1970 && ValidDate(CivilFromDays(n))
    ensures DaysFromCivil(CivilFromDays(n)) == n
  {
    CivilIsCalendar(n);
    DaysOfPages(n);
  }

  /** Counting days respects the order of dates, hence also separates them. */
  lemma {:induction false} CountingIsMonotone(a: Date, b: Date)
    requires ValidDate(a) && ValidDate(b) && a.y >= 1970 && Earlier(a, b)
    ensures DaysFromCivil(a) < DaysFromCivil(b)
  {
    if a.y < b.y {
      YearsGrow(a.y, b.y);
      MonthsGrow(a.y, a.m, 12);
      MonthsFillYear(a.y);
    } else if a.m < b.m {
      MonthsGrow(a.y, a.m, b.m);
    }
  }

  lemma {:induction false} YearsGrow(x: int, y: int)
    requires 1970 <= x < y
    ensures DaysBeforeYear(x) + YearDays(x) <= DaysBeforeYear(y)
    decreases y
  {
    if x + 1 < y { YearsGrow(x, y - 1); }
  }

  lemma {:induction false} MonthsGrow(y: int, m: int, n: int)
    requires 1 <= m <= n <= 12
    ensures m < n ==> DaysBeforeMonth(y, m) + MonthLength(y, m) <= DaysBeforeMonth(y, n)
    decreases n
  {
    if m + 1 < n { MonthsGrow(y, m, n - 1); }
  }

  /** The date of day n is the only one from 1970 on that counts n days. */
  lemma {:induction false} CivilOfDays(date: Date, n: nat)
    requires ValidDate(date) && date.y >= 1970
    ensures DaysFromCivil(date) == n <==> CivilFromDays(n) == date
  {
    var back := CivilFromDays(n);
    DaysOfCivil(n);
    if Earlier(date, back) {
      CountingIsMonotone(date, back);
    } else if Earlier(back, date) {
      CountingIsMonotone(back, date);
    }
  }

  /** The order of day numbers is the order of dates. */
  lemma {:induction false} DatesInOrder(a: nat, b: nat)
    ensures a < b <==> Earlier(CivilFromDays(a), CivilFromDays(b))
  {
    DaysOfCivil(a);
    DaysOfCivil(b);
    var x, y := CivilFromDays(a), CivilFromDays(b);
    if Earlier(x, y) {
      CountingIsMonotone(x, y);
    } else if Earlier(y, x) {
      CountingIsMonotone(y, x);
    }
  }
}
