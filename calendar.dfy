/**
 * Python `datetime.date` values as the range generators use them: the
 * proleptic Gregorian calendar, years 1 to 9999, ordered as Python orders
 * dates, stepped back one day at a time, and written in the basic
 * calendar-date form of ISO 8601 (section 4.1.2.2 of ISO 8601:2004),
 * `YYYYMMDD`, which is what `strftime("%Y%m%d")` produces.
 */
module Calendar {
  import opened Wrappers

  const MinYear := 1
  const MaxYear := 9999

  datatype Date = Date(year: int, month: int, day: int)

  predicate IsLeapYear(year: int) {
    year % 4 == 0 && (year % 100 != 0 || year % 400 == 0)
  }

  function DaysInMonth(year: int, month: int): (n: int)
    requires 1 <= month <= 12
    ensures 28 <= n <= 31
  {
    if month == 2 then (if IsLeapYear(year) then 29 else 28)
    else if month == 4 || month == 6 || month == 9 || month == 11 then 30
    else 31
  }

  predicate Valid(d: Date) {
    && MinYear <= d.year <= MaxYear
    && 1 <= d.month <= 12
    && 1 <= d.day <= DaysInMonth(d.year, d.month)
  }

  /** A value of type `datetime.date`. */
  type Day = d: Date | Valid(d) witness Date(1970, 1, 1)

  /** Python's `a < b` on dates: chronological, i.e. lexicographic on (year, month, day). */
  predicate Before(a: Date, b: Date) {
    || a.year < b.year
    || (a.year == b.year && (a.month < b.month || (a.month == b.month && a.day < b.day)))
  }

  /** `Before` is a strict total order, as Python's date comparison is. */
  lemma BeforeIsStrictTotalOrder(a: Date, b: Date, c: Date)
    ensures !Before(a, a)
    ensures Before(a, b) ==> !Before(b, a)
    ensures Before(a, b) && Before(b, c) ==> Before(a, c)
    ensures a == b || Before(a, b) || Before(b, a)
  {
  }

  /** `d - timedelta(days=1)`; None where Python raises OverflowError (before 0001-01-01). */
  function PrevDay(d: Day): (p: Option<Day>)
    ensures p.None? <==> d == Date(MinYear, 1, 1)
    ensures p.Some? ==> Before(p.value, d)
  {
    if d.day > 1 then Some(Date(d.year, d.month, d.day - 1))
    else if d.month > 1 then Some(Date(d.year, d.month - 1, DaysInMonth(d.year, d.month - 1)))
    else if d.year > MinYear then Some(Date(d.year - 1, 12, 31))
    else None
  }

  /**
   * The previous day is the immediate predecessor: a date is earlier than
   * `d` exactly when it is no later than `PrevDay(d)`, and nothing is
   * earlier than the first day of the calendar.
   */
  lemma PrevDayIsImmediate(d: Day, e: Day)
    ensures Before(e, d) <==> PrevDay(d).Some? && !Before(PrevDay(d).value, e)
  {
    if d.day == 1 && d.month > 1 {
      if Before(e, d) && e.year == d.year && e.month == d.month - 1 {
        assert e.day <= DaysInMonth(d.year, d.month - 1);
      }
    }
  }

  /** The day `n` days before `d`, if the calendar reaches that far back. */
  function Back(d: Day, n: nat): (r: Option<Day>)
    decreases n
  {
    if n == 0 then Some(d)
    else match PrevDay(d)
      case None => None
      case Some(p) => Back(p, n - 1)
  }

  /** Going back one more day from a reachable day gives its predecessor, which is earlier. */
  lemma {:induction false} BackStep(d: Day, n: nat)
    requires Back(d, n).Some?
    ensures Back(d, n + 1) == PrevDay(Back(d, n).value)
    ensures Back(d, n + 1).Some? ==> Before(Back(d, n + 1).value, Back(d, n).value)
    decreases n
  {
    if n > 0 {
      BackStep(PrevDay(d).value, n - 1);
    }
  }

  /** Days further back are strictly earlier: stepping back walks in descending order. */
  lemma {:induction false} BackDescends(d: Day, i: nat, j: nat)
    requires i < j && Back(d, j).Some?
    ensures Back(d, i).Some? && Before(Back(d, j).value, Back(d, i).value)
    decreases j
  {
    if j > 0 && PrevDay(d).Some? {
      var p := PrevDay(d).value;
      if i == 0 {
        if j > 1 {
          BackDescends(p, 0, j - 1);
        }
      } else {
        BackDescends(p, i - 1, j - 1);
      }
    }
  }

  // ---------------------------------------------------------------------
  // Writing and reading the `YYYYMMDD` form

  predicate IsDigit(c: char) {
    '0' <= c <= '9'
  }

  predicate AllDigits(s: string) {
    forall i :: 0 <= i < |s| ==> IsDigit(s[i])
  }

  function Pow10(n: nat): (p: nat)
    ensures p >= 1
  {
    if n == 0 then 1 else 10 * Pow10(n - 1)
  }

  function DigitChar(k: int): (c: char)
    requires 0 <= k < 10
    ensures IsDigit(c)
  {
    (48 + k) as char
  }

  /** `n`, written in decimal with exactly `width` digits, zero-padded on the left. */
  function Digits(n: nat, width: nat): (s: string)
    ensures |s| == width && AllDigits(s)
  {
    if width == 0 then [] else Digits(n / 10, width - 1) + [DigitChar(n % 10)]
  }

  /** The number a string of decimal digits denotes. */
  function DigitsValue(s: string): (n: nat)
    requires AllDigits(s)
    ensures n < Pow10(|s|)
  {
    if s == [] then 0 else DigitsValue(s[..|s| - 1]) * 10 + (s[|s| - 1] as int - 48)
  }

  /** Writing a number that fits in `width` digits and reading it back gives the number. */
  lemma {:induction false} DigitsRoundTrip(n: nat, width: nat)
    requires n < Pow10(width)
    ensures DigitsValue(Digits(n, width)) == n
  {
    if width > 0 {
      DigitsRoundTrip(n / 10, width - 1);
      var s := Digits(n, width);
      assert s[..|s| - 1] == Digits(n / 10, width - 1);
    }
  }

  /** Reading a digit string and writing it back at the same width gives the string. */
  lemma {:induction false} DigitsValueRoundTrip(s: string)
    requires AllDigits(s)
    ensures Digits(DigitsValue(s), |s|) == s
  {
    if s != [] {
      var init := s[..|s| - 1];
      DigitsValueRoundTrip(init);
      var n := DigitsValue(s);
      assert n / 10 == DigitsValue(init);
      assert n % 10 == s[|s| - 1] as int - 48;
    }
  }

  /** `date.strftime("%Y%m%d")`. */
  function BasicDate(d: Day): (s: string)
    ensures |s| == 8 && AllDigits(s)
  {
    Digits(d.year, 4) + Digits(d.month, 2) + Digits(d.day, 2)
  }

  /** The extended form `YYYY-MM-DD`, which callers may pass as text. */
  function ExtendedDate(d: Day): (s: string)
    ensures |s| == 10
  {
    Digits(d.year, 4) + "-" + Digits(d.month, 2) + "-" + Digits(d.day, 2)
  }

  /** `s.replace("-", "")`. */
  function StripDashes(s: string): (r: string)
    ensures '-' !in r
    ensures |r| <= |s|
    ensures forall c :: c in r <==> c in s && c != '-'
  {
    if s == [] then []
    else if s[0] == '-' then StripDashes(s[1..])
    else [s[0]] + StripDashes(s[1..])
  }

  lemma {:induction false} StripDashesAppend(a: string, b: string)
    ensures StripDashes(a + b) == StripDashes(a) + StripDashes(b)
  {
    if a == [] {
      assert a + b == b;
    } else {
      assert (a + b)[0] == a[0];
      assert (a + b)[1..] == a[1..] + b;
      StripDashesAppend(a[1..], b);
    }
  }

  lemma {:induction false} StripDashesOfDigits(s: string)
    requires AllDigits(s)
    ensures StripDashes(s) == s
  {
    if s != [] {
      StripDashesOfDigits(s[1..]);
    }
  }

  /**
   * `strptime(s, "%Y%m%d")` read strictly: eight digits naming a valid
   * date. A string is accepted exactly when it is the basic form of the
   * date returned.
   */
  function ParseBasicDate(s: string): (r: Option<Day>)
    ensures r.Some? ==> BasicDate(r.value) == s
  {
    if |s| == 8 && AllDigits(s) then
      var d := Date(DigitsValue(s[..4]), DigitsValue(s[4..6]), DigitsValue(s[6..]));
      if Valid(d) then
        DigitsValueRoundTrip(s[..4]);
        DigitsValueRoundTrip(s[4..6]);
        DigitsValueRoundTrip(s[6..]);
        assert s == s[..4] + s[4..6] + s[6..];
        Some(d)
      else None
    else None
  }

  /** Every date's basic form is read back as that date. */
  lemma BasicDateRoundTrip(d: Day)
    ensures ParseBasicDate(BasicDate(d)) == Some(d)
  {
    var s := BasicDate(d);
    assert s[..4] == Digits(d.year, 4);
    assert s[4..6] == Digits(d.month, 2);
    assert s[6..] == Digits(d.day, 2);
    DigitsRoundTrip(d.year, 4);
    DigitsRoundTrip(d.month, 2);
    DigitsRoundTrip(d.day, 2);
  }

  /** Removing the dashes from the extended form gives the basic form. */
  lemma ExtendedDateStripsToBasic(d: Day)
    ensures StripDashes(ExtendedDate(d)) == BasicDate(d)
  {
    var y, m, dd := Digits(d.year, 4), Digits(d.month, 2), Digits(d.day, 2);
    assert ExtendedDate(d) == y + ("-" + (m + ("-" + dd)));
    StripDashesAppend(y, "-" + (m + ("-" + dd)));
    StripDashesAppend("-", m + ("-" + dd));
    StripDashesAppend(m, "-" + dd);
    StripDashesAppend("-", dd);
    StripDashesOfDigits(y);
    StripDashesOfDigits(m);
    StripDashesOfDigits(dd);
  }
}
