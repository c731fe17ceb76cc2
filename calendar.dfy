/**
 * Calendar dates as the handlers receive them from `datetime.strptime(…, '%Y-%m-%d')`:
 * valid proleptic Gregorian dates (time of day always midnight), their order
 * (`datetime.__lt__`) and their `strftime('%b %d, %Y')` label.
 * Years are restricted to 1000..9999, where `%Y` always gives four digits.
 */
module Calendar {
  import opened Results

  const MinYear: int := 1000
  const MaxYear: int := 9999

  predicate IsLeapYear(year: int)
  {
    year % 4 == 0 && (year % 100 != 0 || year % 400 == 0)
  }

  function DaysInMonth(year: int, month: int): int
    requires 1 <= month <= 12
  {
    if month == 2 then (if IsLeapYear(year) then 29 else 28)
    else if month in {4, 6, 9, 11} then 30
    else 31
  }

  function DaysInYear(year: int): int
  {
    if IsLeapYear(year) then 366 else 365
  }

  /** A year, month and day, not yet known to name a real date. */
  datatype Ymd = Ymd(year: int, month: int, day: int)

  predicate IsValid(d: Ymd)
  {
    MinYear <= d.year <= MaxYear && 1 <= d.month <= 12 && 1 <= d.day <= DaysInMonth(d.year, d.month)
  }

  /** A date that parsing accepted. */
  type Date = d: Ymd | IsValid(d) witness Ymd(2000, 1, 1)

  /** `a < b` on datetimes at midnight: the first differing component decides. */
  predicate Before(a: Date, b: Date)
    ensures Before(a, b) ==> a != b && a.year <= b.year
  {
    a.year < b.year
    || (a.year == b.year && a.month < b.month)
    || (a.year == b.year && a.month == b.month && a.day < b.day)
  }

  // ---------------------------------------------------------------------------
  // Day numbers: an independent account of chronological order

  /** Days in the years MinYear .. year - 1. */
  function DaysBeforeYear(year: int): nat
    requires MinYear <= year
    decreases year - MinYear
  {
    if year == MinYear then 0 else DaysBeforeYear(year - 1) + DaysInYear(year - 1)
  }

  /** Days in the months January .. month - 1 of a year. */
  function DaysBeforeMonth(year: int, month: int): nat
    requires 1 <= month <= 12
  {
    if month == 1 then 0 else DaysBeforeMonth(year, month - 1) + DaysInMonth(year, month - 1)
  }

  /** Position of a date counted in days, 1 for 1 January of MinYear. */
  function DayNumber(d: Date): int
  {
    DaysBeforeYear(d.year) + DaysBeforeMonth(d.year, d.month) + d.day
  }

  lemma {:induction false} MonthsFillYear(year: int, month: int)
    requires 1 <= month <= 12
    ensures DaysBeforeMonth(year, month) + DaysInMonth(year, month) <= DaysInYear(year)
    ensures month == 12 ==> DaysBeforeMonth(year, month) + DaysInMonth(year, month) == DaysInYear(year)
  {
    var m := month;
    if m == 1 {
    } else {
      assert DaysBeforeMonth(year, 12) == DaysBeforeMonth(year, 11) + 30;
      assert DaysBeforeMonth(year, 11) == DaysBeforeMonth(year, 10) + 31;
      assert DaysBeforeMonth(year, 10) == DaysBeforeMonth(year, 9) + 30;
      assert DaysBeforeMonth(year, 9) == DaysBeforeMonth(year, 8) + 31;
      assert DaysBeforeMonth(year, 8) == DaysBeforeMonth(year, 7) + 31;
      assert DaysBeforeMonth(year, 7) == DaysBeforeMonth(year, 6) + 30;
      assert DaysBeforeMonth(year, 6) == DaysBeforeMonth(year, 5) + 31;
      assert DaysBeforeMonth(year, 5) == DaysBeforeMonth(year, 4) + 30;
      assert DaysBeforeMonth(year, 4) == DaysBeforeMonth(year, 3) + 31;
      assert DaysBeforeMonth(year, 3) == DaysBeforeMonth(year, 2) + DaysInMonth(year, 2);
      assert DaysBeforeMonth(year, 2) == 31;
    }
  }

  lemma {:induction false} LaterMonthStartsAfter(year: int, m1: int, m2: int)
    requires 1 <= m1 < m2 <= 12
    ensures DaysBeforeMonth(year, m1) + DaysInMonth(year, m1) <= DaysBeforeMonth(year, m2)
    decreases m2 - m1
  {
    if m1 + 1 < m2 {
      LaterMonthStartsAfter(year, m1, m2 - 1);
    }
  }

  lemma {:induction false} LaterYearStartsAfter(y1: int, y2: int)
    requires MinYear <= y1 < y2
    ensures DaysBeforeYear(y1) + DaysInYear(y1) <= DaysBeforeYear(y2)
    decreases y2 - y1
  {
    if y1 + 1 < y2 {
      LaterYearStartsAfter(y1, y2 - 1);
    }
  }

  /** The day number of a date lies within its own year. */
  lemma DayNumberWithinYear(d: Date)
    ensures DaysBeforeYear(d.year) < DayNumber(d) <= DaysBeforeYear(d.year) + DaysInYear(d.year)
  {
    MonthsFillYear(d.year, d.month);
  }

  /** Ordering dates component by component is chronological order: it agrees
      with comparing day numbers, in both directions. */
  lemma {:induction false} BeforeIsChronological(a: Date, b: Date)
    ensures Before(a, b) <==> DayNumber(a) < DayNumber(b)
  {
    DayNumberWithinYear(a);
    DayNumberWithinYear(b);
    if a.year < b.year {
      LaterYearStartsAfter(a.year, b.year);
    } else if b.year < a.year {
      LaterYearStartsAfter(b.year, a.year);
    } else if a.month < b.month {
      LaterMonthStartsAfter(a.year, a.month, b.month);
    } else if b.month < a.month {
      LaterMonthStartsAfter(a.year, b.month, a.month);
    }
  }

  /** Exactly one of `a < b`, `a == b`, `b < a` holds. */
  lemma BeforeTrichotomy(a: Date, b: Date)
    ensures Before(a, b) || a == b || Before(b, a)
    ensures !(Before(a, b) && Before(b, a)) && !Before(a, a)
  {
  }

  // ---------------------------------------------------------------------------
  // The label `strftime('%b %d, %Y')`, for example "Jan 05, 2024"

  const MonthNames: seq<string> :=
    ["Jan", "Feb", "Mar", "Apr", "May", "Jun", "Jul", "Aug", "Sep", "Oct", "Nov", "Dec"]

  /** `%b`: the three-letter English month abbreviation. */
  function MonthAbbrev(month: int): (s: string)
    requires 1 <= month <= 12
    ensures |s| == 3
  {
    MonthNames[month - 1]
  }

  function Digit(n: int): char
    requires 0 <= n <= 9
  {
    ('0' as int + n) as char
  }

  /** `%d`: the day as two digits, zero-padded. */
  function TwoDigits(n: int): (s: string)
    requires 0 <= n <= 99
    ensures |s| == 2
  {
    [Digit(n / 10), Digit(n % 10)]
  }

  /** `%Y`: the year as four digits. */
  function FourDigits(n: int): (s: string)
    requires 0 <= n <= 9999
    ensures |s| == 4
  {
    TwoDigits(n / 100) + TwoDigits(n % 100)
  }

  /** The label of one date: month abbreviation, space, day, ", ", year. */
  function Format(d: Date): (s: string)
    ensures |s| == 12
  {
    MonthAbbrev(d.month) + " " + TwoDigits(d.day) + ", " + FourDigits(d.year)
  }

  /** The billing-period label: two date labels joined by " - ". */
  function Period(first: Date, last: Date): (s: string)
    ensures |s| == 27
  {
    Format(first) + " - " + Format(last)
  }

  // ---------------------------------------------------------------------------
  // Reading labels back: the inverse of Format and Period

  function DigitValue(c: char): Option<int>
  {
    if '0' <= c <= '9' then Some(c as int - '0' as int) else None
  }

  function NumberValue(s: string): (r: Option<int>)
    ensures r.Some? ==> 0 <= r.value
  {
    if s == [] then Some(0)
    else match (NumberValue(s[..|s| - 1]), DigitValue(s[|s| - 1]))
      case (Some(high), Some(low)) => Some(10 * high + low)
      case _ => None
  }

  function MonthFromAbbrev(name: string): Option<int>
  {
    if name == "Jan" then Some(1) else if name == "Feb" then Some(2)
    else if name == "Mar" then Some(3) else if name == "Apr" then Some(4)
    else if name == "May" then Some(5) else if name == "Jun" then Some(6)
    else if name == "Jul" then Some(7) else if name == "Aug" then Some(8)
    else if name == "Sep" then Some(9) else if name == "Oct" then Some(10)
    else if name == "Nov" then Some(11) else if name == "Dec" then Some(12)
    else None
  }

  /** The date a `%b %d, %Y` label names, if it names a valid one. */
  function ParseLabel(s: string): Option<Date>
  {
    if |s| != 12 || s[3] != ' ' || s[6..8] != ", " then None
    else match (MonthFromAbbrev(s[..3]), NumberValue(s[4..6]), NumberValue(s[8..]))
      case (Some(m), Some(d), Some(y)) =>
        if IsValid(Ymd(y, m, d)) then Some(Ymd(y, m, d)) else None
      case _ => None
  }

  /** The two dates a billing-period label names. */
  function SplitPeriod(s: string): Option<(Date, Date)>
  {
    if |s| != 27 || s[12..15] != " - " then None
    else match (ParseLabel(s[..12]), ParseLabel(s[15..]))
      case (Some(a), Some(b)) => Some((a, b))
      case _ => None
  }

  lemma TwoDigitsValue(n: int)
    requires 0 <= n <= 99
    ensures NumberValue(TwoDigits(n)) == Some(n)
  {
    var s := TwoDigits(n);
    assert DigitValue(Digit(n / 10)) == Some(n / 10);
    assert DigitValue(Digit(n % 10)) == Some(n % 10);
    assert s[..1][..0] == [];
    assert NumberValue(s[..1]) == Some(n / 10);
    assert s[..|s| - 1] == s[..1];
  }

  lemma FourDigitsValue(n: int)
    requires 0 <= n <= 9999
    ensures NumberValue(FourDigits(n)) == Some(n)
  {
    var s := FourDigits(n);
    var hi, lo := n / 100, n % 100;
    TwoDigitsValue(hi);
    assert DigitValue(Digit(lo / 10)) == Some(lo / 10);
    assert DigitValue(Digit(lo % 10)) == Some(lo % 10);
    assert s[..3] == TwoDigits(hi) + [Digit(lo / 10)];
    assert s[..3][..2] == TwoDigits(hi);
    assert NumberValue(s[..3]) == Some(10 * hi + lo / 10);
  }

  /** Reading a label back gives the date it was made from. */
  lemma FormatRoundTrip(d: Date)
    ensures ParseLabel(Format(d)) == Some(d)
  {
    var s := Format(d);
    assert s[..3] == MonthAbbrev(d.month);
    assert s[4..6] == TwoDigits(d.day);
    assert s[6..8] == ", ";
    assert s[8..] == FourDigits(d.year);
    TwoDigitsValue(d.day);
    FourDigitsValue(d.year);
  }

  /** Different dates get different labels. */
  lemma FormatInjective(a: Date, b: Date)
    requires Format(a) == Format(b)
    ensures a == b
  {
    FormatRoundTrip(a);
    FormatRoundTrip(b);
  }

  /** A billing-period label determines both dates it was made from. */
  lemma PeriodRoundTrip(first: Date, last: Date)
    ensures SplitPeriod(Period(first, last)) == Some((first, last))
  {
    var s := Period(first, last);
    assert s[..12] == Format(first);
    assert s[12..15] == " - ";
    assert s[15..] == Format(last);
    FormatRoundTrip(first);
    FormatRoundTrip(last);
  }

  /** The labels of 1 January and 1 February 2024. */
  lemma PeriodExample()
    ensures Period(Ymd(2024, 1, 1), Ymd(2024, 2, 1)) == "Jan 01, 2024 - Feb 01, 2024"
  {
  }
}
