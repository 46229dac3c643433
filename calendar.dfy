/**
 * Calendar dates as Python's `datetime.date` handles them: a day is its
 * proleptic Gregorian ordinal (0001-01-01 is day 1, 9999-12-31 is the last
 * representable day). `datetime.now() + timedelta(days=k)` followed by
 * `strftime("%Y-%m-%d")` becomes `IsoDate(today + k)`, and
 * `datetime.fromisoformat` on a date-prefixed string becomes `ParseIsoDate`.
 */
module Calendar {
  import opened Optional
  import opened Text

  /** The ordinal of 9999-12-31, the largest date Python represents. */
  const MaxOrdinal: int := 3652059

  predicate IsLeap(y: int) {
    y % 4 == 0 && (y % 100 != 0 || y % 400 == 0)
  }

  function YearLength(leap: bool): int {
    if leap then 366 else 365
  }

  function DaysInYear(y: int): int {
    YearLength(IsLeap(y))
  }

  /** The length of month `m` in a leap year or a common year. */
  function DaysInMonth(leap: bool, m: int): (r: int)
    requires 1 <= m <= 12
    ensures 28 <= r <= 31
  {
    if m == 2 then (if leap then 29 else 28)
    else if m == 4 || m == 6 || m == 9 || m == 11 then 30
    else 31
  }

  /** Days in the years before `y`, in the closed form Python uses. */
  function DaysBeforeYear(y: int): int
    requires y >= 1
  {
    var p := y - 1;
    p * 365 + p / 4 - p / 100 + p / 400
  }

  /** Each year adds its own length. */
  lemma DaysBeforeNextYear(y: int)
    requires y >= 1
    ensures DaysBeforeYear(y + 1) == DaysBeforeYear(y) + DaysInYear(y)
  {
    var p := y - 1;
    assert (p + 1) / 4 - p / 4 == (if y % 4 == 0 then 1 else 0);
    assert (p + 1) / 100 - p / 100 == (if y % 100 == 0 then 1 else 0);
    assert (p + 1) / 400 - p / 400 == (if y % 400 == 0 then 1 else 0);
  }

  /** Days in the months before month `m`; month 13 stands for the end
      of the year. */
  function DaysBeforeMonth(leap: bool, m: int): (r: int)
    requires 1 <= m <= 13
    ensures r >= 0
  {
    if m == 1 then 0 else DaysBeforeMonth(leap, m - 1) + DaysInMonth(leap, m - 1)
  }

  /** The twelve months make up the year. */
  lemma YearIsTwelveMonths(leap: bool)
    ensures DaysBeforeMonth(leap, 13) == YearLength(leap)
  {
    assert DaysBeforeMonth(leap, 2) == DaysBeforeMonth(leap, 1) + DaysInMonth(leap, 1);
    assert DaysBeforeMonth(leap, 3) == DaysBeforeMonth(leap, 2) + DaysInMonth(leap, 2);
    assert DaysBeforeMonth(leap, 4) == DaysBeforeMonth(leap, 3) + DaysInMonth(leap, 3);
    assert DaysBeforeMonth(leap, 5) == DaysBeforeMonth(leap, 4) + DaysInMonth(leap, 4);
    assert DaysBeforeMonth(leap, 6) == DaysBeforeMonth(leap, 5) + DaysInMonth(leap, 5);
    assert DaysBeforeMonth(leap, 7) == DaysBeforeMonth(leap, 6) + DaysInMonth(leap, 6);
    assert DaysBeforeMonth(leap, 8) == DaysBeforeMonth(leap, 7) + DaysInMonth(leap, 7);
    assert DaysBeforeMonth(leap, 9) == DaysBeforeMonth(leap, 8) + DaysInMonth(leap, 8);
    assert DaysBeforeMonth(leap, 10) == DaysBeforeMonth(leap, 9) + DaysInMonth(leap, 9);
    assert DaysBeforeMonth(leap, 11) == DaysBeforeMonth(leap, 10) + DaysInMonth(leap, 10);
    assert DaysBeforeMonth(leap, 12) == DaysBeforeMonth(leap, 11) + DaysInMonth(leap, 11);
    assert DaysBeforeMonth(leap, 13) == DaysBeforeMonth(leap, 12) + DaysInMonth(leap, 12);
  }

  /** Later months start later. */
  lemma {:induction false} MonthsGrow(leap: bool, a: int, b: int)
    requires 1 <= a <= b <= 13
    ensures DaysBeforeMonth(leap, a) <= DaysBeforeMonth(leap, b)
    decreases b - a
  {
    if a < b {
      MonthsGrow(leap, a, b - 1);
    }
  }

  datatype Date = Date(year: int, month: int, day: int)

  /** A date Python can represent. */
  predicate Valid(d: Date) {
    1 <= d.year <= 9999 && 1 <= d.month <= 12 && 1 <= d.day <= DaysInMonth(IsLeap(d.year), d.month)
  }

  /** `date.toordinal()`: the day falls within its own year, and every
      representable date has an ordinal in range. */
  function ToOrdinal(d: Date): (r: int)
    requires Valid(d)
    ensures DaysBeforeYear(d.year) < r <= DaysBeforeYear(d.year) + DaysInYear(d.year)
    ensures 1 <= r <= MaxOrdinal
  {
    var leap := IsLeap(d.year);
    assert 1 <= DaysBeforeMonth(leap, d.month) + d.day <= DaysInYear(d.year) by {
      YearIsTwelveMonths(leap);
      MonthsGrow(leap, d.month + 1, 13);
    }
    DaysBeforeNextYear(d.year);
    YearsGrow(d.year + 1, 10000);
    YearsGrow(1, d.year);
    DaysBeforeYear(d.year) + DaysBeforeMonth(leap, d.month) + d.day
  }

  /** The year holding day `rem` counted from the first day of year `y`. */
  function YearOf(y: int, rem: int): (r: (int, int))
    requires y >= 1 && rem >= 1
    ensures r.0 >= y && 1 <= r.1 <= DaysInYear(r.0)
    ensures DaysBeforeYear(r.0) + r.1 == DaysBeforeYear(y) + rem
    decreases rem
  {
    DaysBeforeNextYear(y);
    if rem <= DaysInYear(y) then (y, rem) else YearOf(y + 1, rem - DaysInYear(y))
  }

  /** The month holding day-of-year `rem`, searching from month `m`. */
  function MonthOf(leap: bool, m: int, rem: int): (r: (int, int))
    requires 1 <= m <= 12 && 1 <= rem && DaysBeforeMonth(leap, m) + rem <= YearLength(leap)
    ensures m <= r.0 <= 12 && 1 <= r.1 <= DaysInMonth(leap, r.0)
    ensures DaysBeforeMonth(leap, r.0) + r.1 == DaysBeforeMonth(leap, m) + rem
    decreases 12 - m
  {
    if rem <= DaysInMonth(leap, m) then (m, rem)
    else if m == 12 then YearIsTwelveMonths(leap); assert false; (m, rem)
    else MonthOf(leap, m + 1, rem - DaysInMonth(leap, m))
  }

  /** `date.fromordinal(n)`: the date `n` days on from 0000-12-31. */
  function FromOrdinal(n: int): (d: Date)
    requires 1 <= n <= MaxOrdinal
    ensures Valid(d)
    ensures ToOrdinal(d) == n
  {
    var (y, doy) := YearOf(1, n);
    DaysBeforeNextYear(9999);
    if y > 9999 then
      YearsGrow(10000, y);
      assert false; Date(1, 1, 1)
    else
      var (m, dom) := MonthOf(IsLeap(y), 1, doy);
      Date(y, m, dom)
  }

  /** More years, more days. */
  lemma {:induction false} YearsGrow(a: int, b: int)
    requires 1 <= a <= b
    ensures DaysBeforeYear(a) <= DaysBeforeYear(b)
    decreases b - a
  {
    if a < b {
      DaysBeforeNextYear(a);
      YearsGrow(a + 1, b);
    }
  }

  /** A day of the calendar falls in exactly one year. */
  lemma YearUnique(y1: int, k1: int, y2: int, k2: int)
    requires y1 >= 1 && 1 <= k1 <= DaysInYear(y1)
    requires y2 >= 1 && 1 <= k2 <= DaysInYear(y2)
    requires DaysBeforeYear(y1) + k1 == DaysBeforeYear(y2) + k2
    ensures y1 == y2 && k1 == k2
  {
    if y1 < y2 {
      DaysBeforeNextYear(y1);
      YearsGrow(y1 + 1, y2);
    } else if y2 < y1 {
      DaysBeforeNextYear(y2);
      YearsGrow(y2 + 1, y1);
    }
  }

  /** A day of the year falls in exactly one month. */
  lemma MonthUnique(leap: bool, m1: int, k1: int, m2: int, k2: int)
    requires 1 <= m1 <= 12 && 1 <= k1 <= DaysInMonth(leap, m1)
    requires 1 <= m2 <= 12 && 1 <= k2 <= DaysInMonth(leap, m2)
    requires DaysBeforeMonth(leap, m1) + k1 == DaysBeforeMonth(leap, m2) + k2
    ensures m1 == m2 && k1 == k2
  {
    if m1 < m2 {
      MonthsGrow(leap, m1 + 1, m2);
    } else if m2 < m1 {
      MonthsGrow(leap, m2 + 1, m1);
    }
  }

  /** `date.fromordinal(d.toordinal()) == d` for every representable date. */
  lemma OrdinalRoundTrip(d: Date)
    requires Valid(d)
    ensures 1 <= ToOrdinal(d) <= MaxOrdinal
    ensures FromOrdinal(ToOrdinal(d)) == d
  {
    var leap := IsLeap(d.year);
    var doy := DaysBeforeMonth(leap, d.month) + d.day;
    var e := FromOrdinal(ToOrdinal(d));
    var eLeap := IsLeap(e.year);
    YearUnique(e.year, DaysBeforeMonth(eLeap, e.month) + e.day, d.year, doy);
    MonthUnique(leap, e.month, e.day, d.month, d.day);
  }

  /** Two digits, zero padded. */
  function Pad2(n: int): (r: string)
    requires 0 <= n < 100
    ensures |r| == 2 && IsDigit(r[0]) && IsDigit(r[1])
  {
    [DigitChar(n / 10), DigitChar(n % 10)]
  }

  /** Four digits, zero padded. */
  function Pad4(n: int): (r: string)
    requires 0 <= n < 10000
    ensures |r| == 4 && IsDigit(r[0]) && IsDigit(r[1]) && IsDigit(r[2]) && IsDigit(r[3])
  {
    Pad2(n / 100) + Pad2(n % 100)
  }

  predicate IsDigit(c: char) {
    '0' <= c <= '9'
  }

  function DigitValue(c: char): int
    requires IsDigit(c)
  {
    c as int - '0' as int
  }

  /** The value of the two digits at `s[i..i+2]`. */
  function Value2(s: string, i: nat): int
    requires i + 2 <= |s| && IsDigit(s[i]) && IsDigit(s[i + 1])
  {
    10 * DigitValue(s[i]) + DigitValue(s[i + 1])
  }

  /** The value of the four digits at `s[i..i+4]`. */
  function Value4(s: string, i: nat): int
    requires i + 4 <= |s|
    requires IsDigit(s[i]) && IsDigit(s[i + 1]) && IsDigit(s[i + 2]) && IsDigit(s[i + 3])
  {
    100 * Value2(s, i) + Value2(s, i + 2)
  }

  /** `strftime("%Y-%m-%d")` of the day with ordinal `n`. */
  function IsoDate(n: int): (r: string)
    requires 1 <= n <= MaxOrdinal
    ensures |r| == 10 && r[4] == '-' && r[7] == '-'
  {
    var d := FromOrdinal(n);
    Pad4(d.year) + "-" + Pad2(d.month) + "-" + Pad2(d.day)
  }

  /** `datetime.fromisoformat(s)` (the Python 3.7 to 3.10 grammar) reduced
      to its date: `s` must begin with a valid `YYYY-MM-DD`; whatever
      follows, a separator of any character and a time part, is not
      examined. The result is the date's ordinal. */
  function ParseIsoDate(s: string): (r: Option<int>)
    ensures r.Some? ==> 1 <= r.value <= MaxOrdinal
    ensures r.Some? <==>
      && |s| >= 10 && s[4] == '-' && s[7] == '-'
      && IsDigit(s[0]) && IsDigit(s[1]) && IsDigit(s[2]) && IsDigit(s[3])
      && IsDigit(s[5]) && IsDigit(s[6]) && IsDigit(s[8]) && IsDigit(s[9])
      && Valid(Date(Value4(s, 0), Value2(s, 5), Value2(s, 8)))
    ensures r.Some? ==> FromOrdinal(r.value) == Date(Value4(s, 0), Value2(s, 5), Value2(s, 8))
  {
    if |s| < 10 || s[4] != '-' || s[7] != '-' then None
    else if !(IsDigit(s[0]) && IsDigit(s[1]) && IsDigit(s[2]) && IsDigit(s[3])
              && IsDigit(s[5]) && IsDigit(s[6]) && IsDigit(s[8]) && IsDigit(s[9])) then None
    else
      var d := Date(Value4(s, 0), Value2(s, 5), Value2(s, 8));
      if !Valid(d) then None
      else
        OrdinalRoundTrip(d);
        Some(ToOrdinal(d))
  }

  lemma Pad2Value(n: int)
    requires 0 <= n < 100
    ensures Value2(Pad2(n), 0) == n
  {
  }

  lemma Pad4Value(n: int)
    requires 0 <= n < 10000
    ensures Value4(Pad4(n), 0) == n
  {
    var s := Pad4(n);
    Pad2Value(n / 100);
    Pad2Value(n % 100);
    assert Value2(s, 0) == Value2(Pad2(n / 100), 0);
    assert Value2(s, 2) == Value2(Pad2(n % 100), 0);
  }

  /** The three numeric fields of a rendered date read back as written. */
  lemma RenderedFields(y: int, m: int, d: int)
    requires 0 <= y < 10000 && 0 <= m < 100 && 0 <= d < 100
    ensures var s := Pad4(y) + "-" + Pad2(m) + "-" + Pad2(d);
      |s| == 10 && s[4] == '-' && s[7] == '-' &&
      IsDigit(s[0]) && IsDigit(s[1]) && IsDigit(s[2]) && IsDigit(s[3]) &&
      IsDigit(s[5]) && IsDigit(s[6]) && IsDigit(s[8]) && IsDigit(s[9]) &&
      Value4(s, 0) == y && Value2(s, 5) == m && Value2(s, 8) == d
  {
    var ys, ms, ds := Pad4(y), Pad2(m), Pad2(d);
    var s := ys + "-" + ms + "-" + ds;
    assert s[0] == ys[0] && s[1] == ys[1] && s[2] == ys[2] && s[3] == ys[3];
    assert s[5] == ms[0] && s[6] == ms[1] && s[8] == ds[0] && s[9] == ds[1];
    Pad4Value(y);
    Pad2Value(m);
    Pad2Value(d);
    assert Value2(s, 0) == Value2(ys, 0) && Value2(s, 2) == Value2(ys, 2);
  }

  /** Reading back a rendered date gives the same day: `ParseIsoDate` is a
      left inverse of `IsoDate` on every representable day. */
  lemma IsoDateRoundTrip(n: int)
    requires 1 <= n <= MaxOrdinal
    ensures ParseIsoDate(IsoDate(n)) == Some(n)
  {
    var d := FromOrdinal(n);
    RenderedFields(d.year, d.month, d.day);
  }
}
