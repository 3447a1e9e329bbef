/** Civil dates from day numbers (src/time.rs), against the Gregorian calendar itself. */
module Calendar {

  datatype Date = Date(year: int, month: int, day: int)

  // The calendar: leap years, month lengths, the day after a date.

  predicate Leap(y: int) {
    y % 4 == 0 && (y % 100 != 0 || y % 400 == 0)
  }

  function MonthLength(y: int, m: int): int {
    if m == 2 then (if Leap(y) then 29 else 28)
    else if m in {4, 6, 9, 11} then 30
    else 31
  }

  predicate Valid(d: Date) {
    1 <= d.month <= 12 && 1 <= d.day <= MonthLength(d.year, d.month)
  }

  function NextDay(d: Date): Date {
    if d.day < MonthLength(d.year, d.month) then d.(day := d.day + 1)
    else if d.month < 12 then Date(d.year, d.month + 1, 1)
    else Date(d.year + 1, 1, 1)
  }

  predicate Earlier(a: Date, b: Date) {
    a.year < b.year
    || (a.year == b.year && a.month < b.month)
    || (a.year == b.year && a.month == b.month && a.day < b.day)
  }

  /** Days of the year `y` before the month `m`. */
  function DaysBeforeMonth(y: int, m: int): int
    requires 1 <= m <= 12
    decreases m
  {
    if m == 1 then 0 else DaysBeforeMonth(y, m - 1) + MonthLength(y, m - 1)
  }

  /** Days from 1970-01-01 to 1 January of `y`. */
  function DaysBeforeYear(y: int): int {
    365 * (y - 1) + (y - 1) / 4 - (y - 1) / 100 + (y - 1) / 400 - 719162
  }

  /** Days from 1970-01-01 to `d`. */
  function DaysFromCivil(d: Date): int
    requires Valid(d)
  {
    DaysBeforeYear(d.year) + DaysBeforeMonth(d.year, d.month) + d.day - 1
  }

  lemma QuotientSteps(y: int)
    ensures y / 4 - (y - 1) / 4 == (if y % 4 == 0 then 1 else 0)
    ensures y / 100 - (y - 1) / 100 == (if y % 100 == 0 then 1 else 0)
    ensures y / 400 - (y - 1) / 400 == (if y % 400 == 0 then 1 else 0)
  {
  }

  lemma CenturiesNest(y: int)
    ensures y % 100 == 0 ==> y % 4 == 0
    ensures y % 400 == 0 ==> y % 100 == 0
  {
    assert y % 100 == 0 ==> y == 4 * (25 * (y / 100));
    assert y % 400 == 0 ==> y == 100 * (4 * (y / 400));
  }

  lemma YearLength(y: int)
    ensures DaysBeforeYear(y + 1) == DaysBeforeYear(y) + (if Leap(y) then 366 else 365)
    ensures DaysBeforeMonth(y, 12) + 31 == (if Leap(y) then 366 else 365)
  {
    MonthTable(y);
    QuotientSteps(y);
    CenturiesNest(y);
  }

  lemma MonthTable(y: int)
    ensures var l := if Leap(y) then 1 else 0;
            && DaysBeforeMonth(y, 1) == 0 && DaysBeforeMonth(y, 2) == 31
            && DaysBeforeMonth(y, 3) == 59 + l && DaysBeforeMonth(y, 4) == 90 + l
            && DaysBeforeMonth(y, 5) == 120 + l && DaysBeforeMonth(y, 6) == 151 + l
            && DaysBeforeMonth(y, 7) == 181 + l && DaysBeforeMonth(y, 8) == 212 + l
            && DaysBeforeMonth(y, 9) == 243 + l && DaysBeforeMonth(y, 10) == 273 + l
            && DaysBeforeMonth(y, 11) == 304 + l && DaysBeforeMonth(y, 12) == 334 + l
  {
    assert DaysBeforeMonth(y, 4) == DaysBeforeMonth(y, 3) + 31;
    assert DaysBeforeMonth(y, 6) == DaysBeforeMonth(y, 5) + 31;
    assert DaysBeforeMonth(y, 8) == DaysBeforeMonth(y, 7) + 31;
    assert DaysBeforeMonth(y, 10) == DaysBeforeMonth(y, 9) + 30;
    assert DaysBeforeMonth(y, 12) == DaysBeforeMonth(y, 11) + 30;
  }

  // The program's algorithm. Each subtraction below is on unsigned words;
  // the `nat` types are the proof that none wraps.

  function YearOfEra(doe: nat): nat
    requires doe < 146097
  {
    var a: nat := doe - doe / 1460;
    var b: nat := a + doe / 36524 - doe / 146096;
    b / 365
  }

  function DayOfYear(doe: nat): nat
    requires doe < 146097
  {
    EraSplit(doe);
    var yoe := YearOfEra(doe);
    var before: nat := 365 * yoe + yoe / 4 - yoe / 100;
    doe - before
  }

  /** Day `doy` of the year that starts on 1 March of `y`. */
  function CivilOfMarchYear(y: int, doy: nat): Date
    requires doy <= 365
  {
    var mp: nat := (5 * doy + 2) / 153;
    MonthSplit(doy);
    var before: nat := (153 * mp + 2) / 5;
    var d: nat := doy - before + 1;
    var m: nat := if mp < 10 then mp + 3 else mp - 9;
    Date(if m <= 2 then y + 1 else y, m, d)
  }

  function CivilFromDays(z: int): Date {
    var shifted := z + 719468;
    var era := shifted / 146097;
    var doe: nat := shifted % 146097;
    EraSplit(doe);
    CivilOfMarchYear(YearOfEra(doe) + 400 * era, DayOfYear(doe))
  }

  /** Days of a March-based 400-year era before its year `n`. */
  function MarchDays(n: nat): nat {
    365 * n + n / 4 - n / 100
  }

  /** Day `u` of year `t` of leap cycle `q` of century `c` of an era. */
  predicate InEra(c: nat, q: nat, t: nat, u: nat) {
    c <= 3 && q <= 24 && t <= 3 && u <= 365
    && (u == 365 ==> t == 3 && (q == 24 ==> c == 3))
  }

  lemma EraParts(doe: nat) returns (c: nat, q: nat, t: nat, u: nat)
    requires doe < 146097
    ensures InEra(c, q, t, u) && doe == 36524 * c + 1461 * q + 365 * t + u
  {
    c := if doe == 146096 then 3 else doe / 36524;
    var r := doe - 36524 * c;
    q := r / 1461;
    var s := r % 1461;
    t := if s == 1460 then 3 else s / 365;
    u := s - 365 * t;
  }

  lemma YearOfParts(c: nat, q: nat, t: nat, u: nat)
    requires InEra(c, q, t, u)
    ensures var doe := 36524 * c + 1461 * q + 365 * t + u;
            doe < 146097 && YearOfEra(doe) == 100 * c + 4 * q + t
  {
    var doe := 36524 * c + 1461 * q + 365 * t + u;
    var rest := 24 * c + q + 365 * t + u;
    assert doe == 1460 * (25 * c + q) + rest;
    var e := if rest >= 1460 then 1 else 0;
    assert doe / 1460 == 25 * c + q + e;
    assert doe / 36524 - doe / 146096 == c;
    assert doe - doe / 1460 + doe / 36524 - doe / 146096 == 365 * (100 * c + 4 * q + t) + (u - e);
  }

  /** The year of the era is the one whose days enclose `doe`. */
  lemma EraSplit(doe: nat)
    requires doe < 146097
    ensures YearOfEra(doe) < 400
    ensures 0 <= doe - MarchDays(YearOfEra(doe)) <= 365
    ensures doe - MarchDays(YearOfEra(doe)) == 365 ==> Leap(YearOfEra(doe) + 1)
  {
    var c, q, t, u := EraParts(doe);
    YearOfParts(c, q, t, u);
    MarchDaysOfParts(c, q, t);
    if u == 365 { LastDayIsLeap(c, q); }
  }

  lemma MarchDaysOfParts(c: nat, q: nat, t: nat)
    requires c <= 3 && q <= 24 && t <= 3
    ensures var n := 100 * c + 4 * q + t; n < 400 && MarchDays(n) == 36524 * c + 1461 * q + 365 * t
  {
    var n := 100 * c + 4 * q + t;
    assert n / 4 == 25 * c + q;
    assert n / 100 == c;
  }

  lemma LastDayIsLeap(c: nat, q: nat)
    requires c <= 3 && q <= 24 && (q == 24 ==> c == 3)
    ensures Leap(100 * c + 4 * q + 4)
  {
    var n := 100 * c + 4 * q + 4;
    assert n == 4 * (25 * c + q + 1);
    if q == 24 { assert n == 400; } else { assert n % 100 == 4 * q + 4; }
  }

  /** March-based months: (153·mp+2)/5 days come before month `mp`. */
  lemma MonthSplit(doy: nat)
    requires doy <= 365
    ensures var mp := (5 * doy + 2) / 153; mp <= 11 && (153 * mp + 2) / 5 <= doy
  {
  }

  lemma EraQuotients(n: int, era: int)
    ensures (n + 400 * era) / 4 == n / 4 + 100 * era
    ensures (n + 400 * era) / 100 == n / 100 + 4 * era
    ensures (n + 400 * era) / 400 == n / 400 + era
  {
  }

  lemma EraYears(era: int, yoe: nat)
    requires yoe < 400
    ensures DaysBeforeYear(yoe + 400 * era + 1) == MarchDays(yoe) + 146097 * era - 719162
    ensures Leap(yoe + 400 * era + 1) <==> Leap(yoe + 1)
  {
    EraQuotients(yoe, era);
    EraRemainders(yoe + 1, era);
  }

  lemma EraRemainders(n: int, era: int)
    ensures Leap(n + 400 * era) <==> Leap(n)
  {
    EraQuotients(n, era);
  }

  /** A day of a March-based year, as a month from March and a day in it. */
  lemma MonthOfYear(y: int, doy: nat)
    requires doy <= 365 && (doy == 365 ==> Leap(y + 1))
    ensures var date := CivilOfMarchYear(y, doy);
            Valid(date) && DaysFromCivil(date) == DaysBeforeYear(y + 1) + doy - 306
  {
    MonthTable(y);
    MonthTable(y + 1);
    YearLength(y);
  }

  lemma EraCount(era: int, doe: nat)
    requires doe < 146097
    ensures YearOfEra(doe) < 400 && DayOfYear(doe) <= 365
    ensures DaysBeforeYear(YearOfEra(doe) + 400 * era + 1) + DayOfYear(doe) == 146097 * era + doe - 719162
    ensures DayOfYear(doe) == 365 ==> Leap(YearOfEra(doe) + 400 * era + 1)
  {
    EraSplit(doe);
    EraYears(era, YearOfEra(doe));
  }

  /** Every day number has a valid date, and the calendar counts back to it. */
  lemma CivilIsTheDate(z: int)
    ensures Valid(CivilFromDays(z))
    ensures DaysFromCivil(CivilFromDays(z)) == z
  {
    var era, doe := (z + 719468) / 146097, (z + 719468) % 146097;
    EraCount(era, doe);
    MonthOfYear(YearOfEra(doe) + 400 * era, DayOfYear(doe));
  }

  lemma {:induction false} YearsIncrease(a: int, b: int)
    requires a < b
    ensures DaysBeforeYear(a) + (if Leap(a) then 366 else 365) <= DaysBeforeYear(b)
    decreases b - a
  {
    YearLength(a);
    if a + 1 < b { YearsIncrease(a + 1, b); }
  }

  lemma {:induction false} MonthsIncrease(y: int, m: int, n: int)
    requires 1 <= m < n <= 12
    ensures DaysBeforeMonth(y, m) + MonthLength(y, m) <= DaysBeforeMonth(y, n)
    decreases n - m
  {
    if m < n - 1 { MonthsIncrease(y, m, n - 1); }
  }

  /** Later dates have larger day numbers. */
  lemma DaysFollowDates(a: Date, b: Date)
    requires Valid(a) && Valid(b) && Earlier(a, b)
    ensures DaysFromCivil(a) < DaysFromCivil(b)
  {
    if a.year < b.year {
      YearsIncrease(a.year, b.year);
      YearLength(a.year);
      MonthTable(a.year);
      if a.month < 12 { MonthsIncrease(a.year, a.month, 12); }
      if 1 < b.month { MonthsIncrease(b.year, 1, b.month); }
    } else if a.month < b.month {
      MonthsIncrease(a.year, a.month, b.month);
    }
  }

  /** The other half of the bijection: no valid date is missed or shared. */
  lemma DateIsTheCivil(d: Date)
    requires Valid(d)
    ensures CivilFromDays(DaysFromCivil(d)) == d
  {
    var c := CivilFromDays(DaysFromCivil(d));
    CivilIsTheDate(DaysFromCivil(d));
    if Earlier(c, d) { DaysFollowDates(c, d); }
    if Earlier(d, c) { DaysFollowDates(d, c); }
  }

  /** Dates follow day numbers: the order of the two agrees. */
  lemma DatesFollowDays(a: int, b: int)
    ensures a < b <==> Earlier(CivilFromDays(a), CivilFromDays(b))
  {
    var x, y := CivilFromDays(a), CivilFromDays(b);
    CivilIsTheDate(a);
    CivilIsTheDate(b);
    if Earlier(x, y) { DaysFollowDates(x, y); }
    if Earlier(y, x) { DaysFollowDates(y, x); }
  }

  lemma NextDayCountsOne(d: Date)
    requires Valid(d)
    ensures Valid(NextDay(d)) && DaysFromCivil(NextDay(d)) == DaysFromCivil(d) + 1
  {
    YearLength(d.year);
    MonthTable(d.year);
  }

  /** One day later is the calendar's next day. */
  lemma TomorrowIsNextDay(z: int)
    ensures CivilFromDays(z + 1) == NextDay(CivilFromDays(z))
    ensures CivilFromDays(0) == Date(1970, 1, 1)
  {
    hide CivilFromDays, DaysFromCivil, NextDay, Valid;
    var d := CivilFromDays(z);
    CivilIsTheDate(z);
    NextDayCountsOne(d);
    DateIsTheCivil(NextDay(d));
    NewYearsDay(1970);
    assert DaysBeforeYear(1970) == 0;
  }

  lemma NewYearsDay(y: int)
    ensures CivilFromDays(DaysBeforeYear(y)) == Date(y, 1, 1)
  {
    hide CivilFromDays;
    DateIsTheCivil(Date(y, 1, 1));
  }
}
