/** `YYYY-MM-DDTHH:MM:SSZ` rendering (src/time.rs) and the string order the poll cursor relies on. */
module Iso8601 {
  import opened Text
  import opened Calendar

  const DAY := 86400
  /** Midnight of 10000-01-01: the first instant whose year has five digits. */
  const YEAR_10000: nat := 253402300800

  lemma EpochYears(days: nat)
    ensures 1970 <= CivilFromDays(days).year
    ensures days < YEAR_10000 / DAY <==> CivilFromDays(days).year <= 9999
  {
    var d := CivilFromDays(days);
    CivilIsTheDate(days);
    var first, last := Date(1970, 1, 1), Date(10000, 1, 1);
    assert DaysFromCivil(first) == 0 && DaysFromCivil(last) == YEAR_10000 / DAY;
    if Earlier(d, first) { DaysFollowDates(d, first); }
    if Earlier(d, last) { DaysFollowDates(d, last); }
    if Earlier(last, d) { DaysFollowDates(last, d); }
  }

  /** `{year:04}`. */
  function YearText(y: nat): string {
    if y < 10000 then Padded(y, 4) else Decimal(y)
  }

  /** A two-digit field, its separator, and what follows. */
  function Field(n: nat, mark: char, rest: string): string {
    Padded(n, 2) + ([mark] + rest)
  }

  /** Seconds of a day as hours, minutes and seconds. */
  datatype Clock = Clock(h: nat, m: nat, s: nat) {
    predicate Valid() { h < 24 && m < 60 && s < 60 }

    function Seconds(): nat { 3600 * h + 60 * m + s }

    function Show(): string {
      Field(h, ':', Field(m, ':', Field(s, 'Z', "")))
    }
  }

  function ClockOf(t: nat): (c: Clock)
    requires t < DAY
    ensures c.Valid() && c.Seconds() == t
  {
    assert t % 3600 / 60 * 60 + t % 60 == t % 3600;
    Clock(t / 3600, t % 3600 / 60, t % 60)
  }

  function DateTail(d: Date, time: string): string
    requires Valid(d)
  {
    Field(d.month, '-', Field(d.day, 'T', time))
  }

  function FormatIso8601(epoch: nat): string {
    CivilIsTheDate(epoch / DAY);
    EpochYears(epoch / DAY);
    Render(CivilFromDays(epoch / DAY), ClockOf(epoch % DAY))
  }

  function Render(d: Date, c: Clock): string
    requires Valid(d) && 0 <= d.year
  {
    YearText(d.year) + ("-" + DateTail(d, c.Show()))
  }

  /** Characters `i` and `i + 1` are digits, `mark` follows them, and they stand for `n`. */
  predicate Reads(s: string, i: nat, n: nat, mark: char) {
    && i + 2 < |s| && s[i + 2] == mark
    && Digits(s[i..i + 2]) && NumberOf(s[i..i + 2]) == n
  }

  lemma FieldReads(n: nat, mark: char, rest: string)
    requires n < 100
    ensures Reads(Field(n, mark, rest), 0, n, mark) && Field(n, mark, rest)[3..] == rest
  {
    assert Pow10(2) == 10 * Pow10(1) == 100;
    PaddedReadsBack(n, 2);
    assert Field(n, mark, rest)[0..2] == Padded(n, 2);
  }

  lemma ReadsLater(s: string, k: nat, i: nat, n: nat, mark: char)
    requires k <= |s| && Reads(s[k..], i, n, mark)
    ensures Reads(s, k + i, n, mark)
  {
    assert s[k..][i..i + 2] == s[k + i..k + i + 2];
  }

  /** `tail` is a date's month and day and a clock time, from `MM-` to the final `Z`. */
  predicate ReadsTail(tail: string, d: Date, c: Clock) {
    && |tail| == 15
    && 0 <= d.month && Reads(tail, 0, d.month, '-') && 0 <= d.day && Reads(tail, 3, d.day, 'T')
    && Reads(tail, 6, c.h, ':') && Reads(tail, 9, c.m, ':') && Reads(tail, 12, c.s, 'Z')
  }

  lemma ClockReads(c: Clock)
    requires c.Valid()
    ensures |c.Show()| == 9 && Reads(c.Show(), 0, c.h, ':') && Reads(c.Show(), 3, c.m, ':') && Reads(c.Show(), 6, c.s, 'Z')
  {
    hide Field, Reads;
    var s := Field(c.s, 'Z', "");
    var m := Field(c.m, ':', s);
    var h := Field(c.h, ':', m);
    FieldReads(c.s, 'Z', "");
    FieldReads(c.m, ':', s);
    FieldReads(c.h, ':', m);
    FieldSizes(c.s, 'Z', "");
    FieldSizes(c.m, ':', s);
    FieldSizes(c.h, ':', m);
    ReadsLater(m, 3, 0, c.s, 'Z');
    ReadsLater(h, 3, 0, c.m, ':');
    ReadsLater(h, 3, 3, c.s, 'Z');
  }

  lemma TailReads(d: Date, c: Clock)
    requires Valid(d) && c.Valid()
    ensures ReadsTail(DateTail(d, c.Show()), d, c) && |DateTail(d, c.Show())| == 15
  {
    hide Field, Reads, Clock.Show;
    var time := c.Show();
    var day := Field(d.day, 'T', time);
    var tail := Field(d.month, '-', day);
    ClockReads(c);
    FieldReads(d.day, 'T', time);
    FieldReads(d.month, '-', day);
    FieldSizes(d.day, 'T', time);
    FieldSizes(d.month, '-', day);
    ReadsLater(tail, 3, 0, d.day, 'T');
    TimeReadsLater(tail, 6, time, c);
  }

  lemma TimeReadsLater(s: string, k: nat, time: string, c: Clock)
    requires k <= |s| && s[k..] == time
    requires Reads(time, 0, c.h, ':') && Reads(time, 3, c.m, ':') && Reads(time, 6, c.s, 'Z')
    ensures Reads(s, k, c.h, ':') && Reads(s, k + 3, c.m, ':') && Reads(s, k + 6, c.s, 'Z')
  {
    hide Reads;
    ReadsLater(s, k, 0, c.h, ':');
    ReadsLater(s, k, 3, c.m, ':');
    ReadsLater(s, k, 6, c.s, 'Z');
  }

  lemma FieldSizes(n: nat, mark: char, rest: string)
    ensures |Field(n, mark, rest)| == 3 + |rest|
  {
  }

  lemma YearReads(y: nat)
    ensures Digits(YearText(y)) && NumberOf(YearText(y)) == y && |YearText(y)| >= 4
    ensures |YearText(y)| == 4 <==> y < 10000
  {
    if y < 10000 {
      assert Pow10(4) == 10 * (10 * Pow10(2)) && Pow10(2) == 100;
      PaddedReadsBack(y, 4);
    } else {
      DecimalReadsBack(y);
      assert y >= 10000;
      assert Decimal(y) == Decimal(y / 10) + [Digit(y % 10)];
      assert Decimal(y / 10) == Decimal(y / 100) + [Digit(y / 10 % 10)] by { assert y / 10 / 10 == y / 100; }
      assert Decimal(y / 100) == Decimal(y / 1000) + [Digit(y / 100 % 10)] by { assert y / 100 / 10 == y / 1000; }
      assert Decimal(y / 1000) == Decimal(y / 10000) + [Digit(y / 1000 % 10)] by { assert y / 1000 / 10 == y / 10000; }
    }
  }

  /** `s` is a year of four digits, or more from year 10000 on, month, day, hour, minute and second of two, with
      their separators. */
  predicate ReadsAs(s: string, d: Date, c: Clock) {
    && |s| >= 20 && (|s| == 20 <==> d.year < 10000)
    && Digits(s[..|s| - 16]) && NumberOf(s[..|s| - 16]) == d.year
    && s[|s| - 16] == '-' && ReadsTail(s[|s| - 15..], d, c)
  }

  lemma RenderReads(d: Date, c: Clock)
    requires Valid(d) && 0 <= d.year && c.Valid()
    ensures ReadsAs(Render(d, c), d, c)
  {
    YearReads(d.year);
    TailReads(d, c);
    hide ReadsTail, ReadsAs, YearText, DateTail;
    PartsRead(YearText(d.year), DateTail(d, c.Show()), d, c);
  }

  lemma PartsRead(year: string, tail: string, d: Date, c: Clock)
    requires Digits(year) && NumberOf(year) == d.year && |year| >= 4 && (|year| == 4 <==> d.year < 10000)
    requires |tail| == 15 && ReadsTail(tail, d, c)
    ensures ReadsAs(year + ("-" + tail), d, c)
  {
    hide ReadsTail, NumberOf, Digits;
    SplitRender(year, tail);
  }

  /** A rendered time reads back as its instant: the date is valid and counts back to it with the clock. */
  lemma FormatReadsBack(t: nat) returns (d: Date, c: Clock)
    ensures ReadsAs(FormatIso8601(t), d, c)
    ensures Valid(d) && c.h < 24 && c.m < 60 && c.s < 60
    ensures 86400 * DaysFromCivil(d) + 3600 * c.h + 60 * c.m + c.s == t
  {
    d, c := CivilFromDays(t / DAY), ClockOf(t % DAY);
    CivilIsTheDate(t / DAY);
    EpochYears(t / DAY);
    hide CivilFromDays, ReadsAs, Render, DaysFromCivil, ClockOf, Valid;
    RenderReads(d, c);
  }

  lemma SplitRender(year: string, tail: string)
    ensures var s := year + ("-" + tail);
            |s| == |year| + 1 + |tail| && s[..|year|] == year && s[|year|] == '-' && s[|year| + 1..] == tail
  {
  }

  lemma SplitOrder(p: string, q: string, a: string, b: string)
    requires |p| == |q|
    ensures Before(p + a, q + b) <==> Before(p, q) || (p == q && Before(a, b))
  {
    BeforeTotal(p, q);
    if p == q { BeforeAfterPrefix(p, a, b); } else { BeforeByHead(p, q, a, b); }
  }

  lemma FieldOrder(m: nat, n: nat, mark: char, a: string, b: string)
    requires m < 100 && n < 100
    ensures Before(Field(m, mark, a), Field(n, mark, b)) <==> m < n || (m == n && Before(a, b))
  {
    assert Pow10(2) == 10 * Pow10(1) == 100;
    PaddedOrder(m, n, 2);
    SplitOrder(Padded(m, 2), Padded(n, 2), [mark] + a, [mark] + b);
    BeforeAfterPrefix([mark], a, b);
  }

  lemma ClockOrder(a: Clock, b: Clock)
    requires a.Valid() && b.Valid()
    ensures Before(a.Show(), b.Show()) <==> a.Seconds() < b.Seconds()
  {
    var sa, sb := Field(a.s, 'Z', ""), Field(b.s, 'Z', "");
    var ma, mb := Field(a.m, ':', sa), Field(b.m, ':', sb);
    FieldOrder(a.s, b.s, 'Z', "", "");
    FieldOrder(a.m, b.m, ':', sa, sb);
    FieldOrder(a.h, b.h, ':', ma, mb);
  }

  /** Up to the last second of year 9999 the string order is the time order. */
  lemma OrderWithinFourDigitYears(a: nat, b: nat)
    requires a < YEAR_10000 && b < YEAR_10000
    ensures Before(FormatIso8601(a), FormatIso8601(b)) <==> a < b
    ensures FormatIso8601(a) == FormatIso8601(b) ==> a == b
  {
    BothOrders(a, b);
    BothOrders(b, a);
    BeforeTotal(FormatIso8601(a), FormatIso8601(b));
  }

  lemma BothOrders(a: nat, b: nat)
    requires a < YEAR_10000 && b < YEAR_10000
    ensures Before(FormatIso8601(a), FormatIso8601(b)) <==> a < b
  {
    DatesFollowDays(a / DAY, b / DAY);
    DatesFollowDays(b / DAY, a / DAY);
    CivilIsTheDate(a / DAY); CivilIsTheDate(b / DAY);
    EpochYears(a / DAY); EpochYears(b / DAY);
    RenderOrder(CivilFromDays(a / DAY), ClockOf(a % DAY), CivilFromDays(b / DAY), ClockOf(b % DAY));
  }

  lemma RenderOrder(x: Date, s: Clock, y: Date, t: Clock)
    requires Valid(x) && Valid(y) && 0 <= x.year <= 9999 && 0 <= y.year <= 9999
    requires s.Valid() && t.Valid()
    ensures Before(Render(x, s), Render(y, t)) <==> Earlier(x, y) || (x == y && s.Seconds() < t.Seconds())
  {
    ClockOrder(s, t);
    DateTailOrder(x, y, s.Show(), t.Show());
    YearOrder(x.year, y.year, DateTail(x, s.Show()), DateTail(y, t.Show()));
  }

  lemma DateTailOrder(x: Date, y: Date, a: string, b: string)
    requires Valid(x) && Valid(y)
    ensures Before(DateTail(x, a), DateTail(y, b)) <==>
            Earlier(x.(year := 0), y.(year := 0)) || (x.(year := 0) == y.(year := 0) && Before(a, b))
  {
    FieldOrder(x.day, y.day, 'T', a, b);
    FieldOrder(x.month, y.month, '-', Field(x.day, 'T', a), Field(y.day, 'T', b));
  }

  lemma YearOrder(m: nat, n: nat, a: string, b: string)
    requires m < 10000 && n < 10000
    ensures Before(YearText(m) + ("-" + a), YearText(n) + ("-" + b)) <==> m < n || (m == n && Before(a, b))
  {
    assert Pow10(4) == 10 * (10 * Pow10(2)) && Pow10(2) == 100;
    PaddedOrder(m, n, 4);
    SplitOrder(Padded(m, 4), Padded(n, 4), "-" + a, "-" + b);
    BeforeAfterPrefix("-", a, b);
  }

  predicate Agrees(a: nat, b: nat) {
    Before(FormatIso8601(a), FormatIso8601(b)) <==> a < b
  }

  /** The four-digit bound is exact: any larger range holds two instants whose strings are swapped. */
  lemma OrderHoldsExactlyToYear9999(limit: nat)
    ensures (forall a: nat, b: nat | a < limit && b < limit :: Agrees(a, b)) <==> limit <= YEAR_10000
  {
    if limit <= YEAR_10000 {
      forall a: nat, b: nat | a < limit && b < limit ensures Agrees(a, b) { BothOrders(a, b); }
    } else {
      var first, last := FiveDigitYearSortsFirst();
      assert first < limit && last < limit && !Agrees(first, last);
    }
  }

  lemma NewYear(y: int)
    ensures var day := DaysFromCivil(Date(y, 1, 1));
            CivilFromDays(day).year == y && CivilFromDays(day - 1).year == y - 1
  {
    var eve := Date(y - 1, 12, 31);
    NextDayCountsOne(eve);
    DateIsTheCivil(eve);
    DateIsTheCivil(NextDay(eve));
  }

  lemma FiveDigitYearSortsFirst() returns (later: nat, sooner: nat)
    ensures sooner < later <= YEAR_10000
    ensures Before(FormatIso8601(later), FormatIso8601(sooner)) && !Agrees(later, sooner)
  {
    var y := 10000;
    later, sooner := YearTurn(y);
    assert DaysBeforeYear(y) == YEAR_10000 / DAY;
    SwapAt(later, sooner);
  }

  lemma YearTurn(y: int) returns (later: nat, sooner: nat)
    requires y > 1970
    ensures sooner < later == DAY * DaysBeforeYear(y)
    ensures CivilFromDays(later / DAY).year == y && CivilFromDays(sooner / DAY).year == y - 1
  {
    NewYear(y);
    YearsIncrease(1970, y);
    var day := DaysFromCivil(Date(y, 1, 1));
    later, sooner := DAY * day, DAY * day - 1;
    assert later / DAY == day && sooner / DAY == day - 1;
  }

  lemma SwapAt(later: nat, sooner: nat)
    requires sooner < later
    requires CivilFromDays(later / DAY).year == 10000 && CivilFromDays(sooner / DAY).year == 9999
    ensures Before(FormatIso8601(later), FormatIso8601(sooner)) && !Agrees(later, sooner)
  {
    CivilIsTheDate(later / DAY);
    CivilIsTheDate(sooner / DAY);
    YearsBySight(CivilFromDays(later / DAY), CivilFromDays(sooner / DAY), ClockOf(later % DAY), ClockOf(sooner % DAY));
  }

  lemma YearsBySight(x: Date, y: Date, s: Clock, t: Clock)
    requires Valid(x) && Valid(y) && x.year == 10000 && y.year == 9999
    ensures Before(Render(x, s), Render(y, t))
  {
    assert Decimal(10000) == Decimal(1000) + [Digit(0)];
    assert Decimal(1000) == Decimal(100) + [Digit(0)];
    assert Decimal(100) == Decimal(10) + [Digit(0)];
    assert YearText(10000)[0] == '1';
    assert Padded(9999, 4) == Padded(999, 3) + [Digit(9)];
    assert Padded(999, 3) == Padded(99, 2) + [Digit(9)];
    assert YearText(9999)[0] == '9';
  }
}
