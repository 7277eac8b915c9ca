/**
 * The calendar window resolver: the three forecast months that follow a run date, the date
 * strings that name the forecast files, and the window lengths the loaders cut series into.
 */
module Calendar {
  import opened Outcomes

  /** The first day of a month, as the script's `datetime(year, month, 1)` values. */
  datatype YearMonth = YearMonth(year: int, month: int)

  /** A calendar day, as `datetime.strptime` yields it. */
  datatype Date = Date(year: int, month: int, day: int)

  /** Years and months that `datetime` accepts. */
  predicate ValidYearMonth(t: YearMonth) {
    1 <= t.year <= 9999 && 1 <= t.month <= 12
  }

  /** The Gregorian leap rule of `calendar.isleap`. */
  predicate IsLeapYear(y: int) {
    y % 4 == 0 && (y % 100 != 0 || y % 400 == 0)
  }

  /** `calendar.monthrange(y, m)[1]`: 30 days hath September, April, June and November; February has 28, or 29 in a leap year. */
  function DaysInMonth(y: int, m: int): (n: int)
    requires 1 <= m <= 12
    ensures 28 <= n <= 31
    ensures n == 29 <==> m == 2 && IsLeapYear(y)
    ensures n == 28 <==> m == 2 && !IsLeapYear(y)
  {
    if m == 2 then (if IsLeapYear(y) then 29 else 28)
    else if m == 4 || m == 6 || m == 9 || m == 11 then 30
    else 31
  }

  /**
   * `t + relativedelta(months=k)` on the first of a month, for 0 <= k <= 11: the month wraps
   * past December into the next year.
   */
  function AddMonths(t: YearMonth, k: int): (r: YearMonth)
    requires 1 <= t.month <= 12 && 0 <= k <= 11
    ensures 1 <= r.month <= 12
    ensures r.month == (t.month - 1 + k) % 12 + 1
    ensures r.year == t.year + 1 <==> t.month + k > 12
    ensures r.year == t.year || r.year == t.year + 1
    ensures 12 * r.year + r.month == 12 * t.year + t.month + k
  {
    var m := t.month + k;
    if m > 12 then YearMonth(t.year + 1, m - 12) else YearMonth(t.year, m)
  }

  predicate IsDigit(c: char) {
    '0' <= c <= '9'
  }

  predicate AllDigits(s: string) {
    forall i :: 0 <= i < |s| ==> IsDigit(s[i])
  }

  function DigitChar(d: int): (c: char)
    requires 0 <= d <= 9
    ensures IsDigit(c)
  {
    ('0' as int + d) as char
  }

  function DigitValue(c: char): (d: int)
    requires IsDigit(c)
    ensures 0 <= d <= 9
  {
    c as int - '0' as int
  }

  /** `int(s)` for a string of decimal digits. */
  function DecimalValue(s: string): (n: nat)
    requires AllDigits(s)
  {
    if s == [] then 0 else 10 * DecimalValue(s[..|s| - 1]) + DigitValue(s[|s| - 1])
  }

  /** `str(n)`, `'{0}'.format(n)`: decimal digits without leading zeros. */
  function Decimal(n: nat): (s: string)
    ensures 0 < |s| && AllDigits(s)
    ensures DecimalValue(s) == n
  {
    if n < 10 then [DigitChar(n)] else
      var s := Decimal(n / 10) + [DigitChar(n % 10)];
      assert s[..|s| - 1] == Decimal(n / 10);
      s
  }

  /** `'{0:02d}'.format(n)` and `strftime("%m")` for a number below one hundred. */
  function Pad2(n: nat): (s: string)
    requires n < 100
    ensures |s| == 2 && AllDigits(s)
    ensures DecimalValue(s) == n
  {
    var s := [DigitChar(n / 10), DigitChar(n % 10)];
    assert s[..1] == [s[0]] && s[..1][..0] == [];
    assert DecimalValue(s[..1]) == n / 10;
    s
  }

  /** Digits of a four-digit year. */
  lemma {:induction false} DecimalFourDigits(n: nat)
    requires 1000 <= n <= 9999
    ensures |Decimal(n)| == 4
  {
    assert |Decimal(n / 1000)| == 1;
    assert |Decimal(n / 100)| == |Decimal(n / 1000)| + 1;
    assert |Decimal(n / 10)| == |Decimal(n / 100)| + 1;
  }

  /** `'{0}{1:02d}{2:02d}'.format(y, m, d)`. */
  function FormatYmd(y: nat, m: nat, d: nat): string
    requires m < 100 && d < 100
  {
    Decimal(y) + Pad2(m) + Pad2(d)
  }

  /** A day that exists in the Gregorian calendar. */
  predicate ValidDate(x: Date) {
    1 <= x.year && 1 <= x.month <= 12 && 1 <= x.day <= DaysInMonth(x.year, x.month)
  }

  /**
   * `datetime.strptime(s, "%Y%m%d")` on its four-digit-year, two-digit-month, two-digit-day
   * layout: None where the call raises.
   */
  function ParseYmd(s: string): (r: Option<Date>)
    ensures r.Some? ==> ValidDate(r.value)
    ensures r.Some? ==> |s| == 8 && AllDigits(s)
  {
    if |s| == 8 && AllDigits(s) then
      assert AllDigits(s[..4]) && AllDigits(s[4..6]) && AllDigits(s[6..]);
      var x := Date(DecimalValue(s[..4]), DecimalValue(s[4..6]), DecimalValue(s[6..]));
      if ValidDate(x) then Some(x) else None
    else None
  }

  /** Formatting a date with a four-digit year and parsing it back gives the same date. */
  lemma {:induction false} FormatParseRoundTrip(x: Date)
    requires ValidDate(x) && 1000 <= x.year <= 9999
    ensures ParseYmd(FormatYmd(x.year, x.month, x.day)) == Some(x)
  {
    var s := FormatYmd(x.year, x.month, x.day);
    DecimalFourDigits(x.year);
    assert s[..4] == Decimal(x.year);
    assert s[4..6] == Pad2(x.month);
    assert s[6..] == Pad2(x.day);
  }

  /** `strftime("%b").lower()` in the C locale. */
  function MonthAbbrev(m: int): (s: string)
    requires 1 <= m <= 12
    ensures |s| == 3 && forall i :: 0 <= i < 3 ==> 'a' <= s[i] <= 'z'
  {
    ["jan", "feb", "mar", "apr", "may", "jun", "jul", "aug", "sep", "oct", "nov", "dec"][m - 1]
  }

  /** The abbreviation names its month: no two months share one. */
  lemma MonthAbbrevDistinct(m1: int, m2: int)
    requires 1 <= m1 <= 12 && 1 <= m2 <= 12 && m1 != m2
    ensures MonthAbbrev(m1) != MonthAbbrev(m2)
  {
    var names := ["jan", "feb", "mar", "apr", "may", "jun", "jul", "aug", "sep", "oct", "nov", "dec"];
    assert MonthAbbrev(m1) == names[m1 - 1] && MonthAbbrev(m2) == names[m2 - 1];
    assert forall i, j :: 0 <= i < j < 12 ==> names[i] != names[j];
  }

  /** The strings `define_dates` returns. */
  datatype Dates = Dates(
    strMon: string,
    fcstMon1: string, fcstMon2: string, fcstMon3: string,
    startRundate: string, startFcstdate: string, endFcstdate: string)

  /** A two-digit month field that `int` and `calendar.monthrange` accept. */
  predicate MonthField(s: string) {
    |s| == 2 && AllDigits(s) && 1 <= DecimalValue(s) <= 12
  }

  predicate WellFormedDates(d: Dates) {
    MonthField(d.fcstMon1) && MonthField(d.fcstMon2) && MonthField(d.fcstMon3)
  }

  /**
   * `define_dates`: the run month's abbreviation, the month numbers of leads 1 to 3, the run
   * date and the first day of lead 1, and the last day of lead 3. Python 2's `strftime` refuses
   * years before 1900, and `relativedelta` cannot go past year 9999: both raise.
   */
  function DefineDates(t: YearMonth): (r: Option<Dates>)
    requires ValidYearMonth(t)
    ensures r.None? <==> t.year < 1900 || (t.year == 9999 && t.month >= 10)
    ensures r.Some? ==> WellFormedDates(r.value)
    ensures r.Some? ==> DecimalValue(r.value.fcstMon1) == t.month % 12 + 1
    ensures r.Some? ==> DecimalValue(r.value.fcstMon2) == (t.month + 1) % 12 + 1
    ensures r.Some? ==> DecimalValue(r.value.fcstMon3) == (t.month + 2) % 12 + 1
  {
    if t.year < 1900 || AddMonths(t, 3).year > 9999 then None
    else
      var i, m, e := AddMonths(t, 1), AddMonths(t, 2), AddMonths(t, 3);
      Some(Dates(MonthAbbrev(t.month),
                 Pad2(i.month), Pad2(m.month), Pad2(e.month),
                 FormatYmd(t.year, t.month, 1),
                 FormatYmd(i.year, i.month, 1),
                 FormatYmd(e.year, e.month, DaysInMonth(e.year, e.month))))
  }

  /** The first day of the forecast's lead-k month. */
  function LeadStart(t: YearMonth, k: int): Date
    requires 1 <= t.month <= 12 && 1 <= k <= 3
  {
    var l := AddMonths(t, k);
    Date(l.year, l.month, 1)
  }

  /** The last day of the forecast's lead-k month. */
  function LeadEnd(t: YearMonth, k: int): Date
    requires 1 <= t.month <= 12 && 1 <= k <= 3
  {
    var l := AddMonths(t, k);
    Date(l.year, l.month, DaysInMonth(l.year, l.month))
  }

  /**
   * The three date strings are eight-digit `YYYYMMDD` strings that parse back to the run date,
   * the first day of lead 1 and the last day of lead 3.
   */
  lemma DefineDatesRoundTrip(t: YearMonth)
    requires ValidYearMonth(t) && DefineDates(t).Some?
    ensures var d := DefineDates(t).value;
      |d.startRundate| == 8 && |d.startFcstdate| == 8 && |d.endFcstdate| == 8
    ensures ParseYmd(DefineDates(t).value.startRundate) == Some(Date(t.year, t.month, 1))
    ensures ParseYmd(DefineDates(t).value.startFcstdate) == Some(LeadStart(t, 1))
    ensures ParseYmd(DefineDates(t).value.endFcstdate) == Some(LeadEnd(t, 3))
    ensures LeadEnd(t, 3).day == 29 <==> t.month == 11 && IsLeapYear(t.year + 1)
  {
    FormatParseRoundTrip(Date(t.year, t.month, 1));
    FormatParseRoundTrip(LeadStart(t, 1));
    FormatParseRoundTrip(LeadEnd(t, 3));
  }

  /** The lengths in days of the three windows a loaded series is cut into. */
  datatype Windows = Windows(first: nat, second: nat, third: nat)

  function Total(w: Windows): nat {
    w.first + w.second + w.third
  }

  /**
   * The window lengths of the loaders: `calendar.monthrange(year, int(fcst_monK))[1]` for the
   * year the loader holds (the run year, or the historical year), not the year of the lead month.
   */
  function WindowLengths(year: int, d: Dates): Windows
    requires WellFormedDates(d)
  {
    Windows(DaysInMonth(year, DecimalValue(d.fcstMon1)),
            DaysInMonth(year, DecimalValue(d.fcstMon2)),
            DaysInMonth(year, DecimalValue(d.fcstMon3)))
  }

  /** Two years give a month the same length unless it is a February and only one is leap. */
  lemma SameMonthLength(y1: int, y2: int, m: int)
    requires 1 <= m <= 12
    ensures DaysInMonth(y1, m) == DaysInMonth(y2, m) <==> !(m == 2 && IsLeapYear(y1) != IsLeapYear(y2))
  {
  }

  /**
   * The same window lengths in closed form: the days of each lead month, counted in `year`.
   */
  function RunWindows(year: int, t: YearMonth): Windows
    requires 1 <= t.month <= 12
  {
    Windows(DaysInMonth(year, AddMonths(t, 1).month),
            DaysInMonth(year, AddMonths(t, 2).month),
            DaysInMonth(year, AddMonths(t, 3).month))
  }

  /** Parsing the month strings of `define_dates` back gives the closed-form window lengths. */
  lemma WindowLengthsOfRun(year: int, t: YearMonth)
    requires ValidYearMonth(t) && DefineDates(t).Some?
    ensures WindowLengths(year, DefineDates(t).value) == RunWindows(year, t)
  {
  }

  /**
   * A window is as long as its calendar month except for a February whose year differs in leap
   * status from the year the loader passes; that happens only across a year wrap.
   */
  lemma WindowLengthsVersusCalendar(t: YearMonth)
    requires ValidYearMonth(t) && DefineDates(t).Some?
    ensures var w := WindowLengths(t.year, DefineDates(t).value);
      var l1, l2, l3 := AddMonths(t, 1), AddMonths(t, 2), AddMonths(t, 3);
      (w.first == DaysInMonth(l1.year, l1.month) <==> !(l1.month == 2 && IsLeapYear(t.year) != IsLeapYear(l1.year))) &&
      (w.second == DaysInMonth(l2.year, l2.month) <==> !(l2.month == 2 && IsLeapYear(t.year) != IsLeapYear(l2.year))) &&
      (w.third == DaysInMonth(l3.year, l3.month) <==> !(l3.month == 2 && IsLeapYear(t.year) != IsLeapYear(l3.year)))
  {
    var l1, l2, l3 := AddMonths(t, 1), AddMonths(t, 2), AddMonths(t, 3);
    SameMonthLength(t.year, l1.year, l1.month);
    SameMonthLength(t.year, l2.year, l2.month);
    SameMonthLength(t.year, l3.year, l3.month);
  }

  /**
   * A run in November 2015 covers December 2015 to February 2016; its file ends on
   * 29 February 2016, but the third window is cut 28 days long, February of 2015.
   */
  lemma RunYearWindowExample()
    ensures DefineDates(YearMonth(2015, 11)).Some?
    ensures WindowLengths(2015, DefineDates(YearMonth(2015, 11)).value).third == 28
    ensures ParseYmd(DefineDates(YearMonth(2015, 11)).value.endFcstdate) == Some(Date(2016, 2, 29))
  {
    var t := YearMonth(2015, 11);
    DefineDatesRoundTrip(t);
    WindowLengthsOfRun(2015, t);
    LeapYears2015And2016();
  }

  /** 2015 is a common year and 2016 a leap year. */
  lemma LeapYears2015And2016()
    ensures DaysInMonth(2015, 2) == 28 && DaysInMonth(2016, 2) == 29
  {
    assert 2015 % 4 == 3;
    assert 2016 % 4 == 0 && 2016 % 100 == 16;
  }
}
