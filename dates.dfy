/**
 * The part of java.time.LocalDate that the warranty arithmetic uses: the
 * proleptic ISO calendar, the supported year range, plusMonths and plusYears.
 */
module Dates {
  import opened Wrappers
  import Text

  /** Year.MIN_VALUE and Year.MAX_VALUE: LocalDate refuses any year outside them. */
  const MinYear: int := -999_999_999
  const MaxYear: int := 999_999_999

  datatype Date = Date(year: int, month: int, day: int)

  /** The DateTimeException raised when a computed year leaves the supported range. */
  datatype DateError = YearOutOfRange(year: int)

  const YearErrorPrefix: string := "Invalid value for Year (valid values -999999999 - 999999999): "

  /** The exception's message: the fixed prefix, then the offending year in decimal. */
  function ErrorMessage(e: DateError): (m: string)
    ensures |m| > |YearErrorPrefix| && m[..|YearErrorPrefix|] == YearErrorPrefix
    ensures Text.IsNumeral(m[|YearErrorPrefix|..]) && Text.ParseInt(m[|YearErrorPrefix|..]) == e.year
    ensures var t := m[|YearErrorPrefix|..];
      && (t[0] == '-' <==> e.year < 0)
      && (var digits := if e.year < 0 then t[1..] else t; |digits| > 1 ==> digits[0] != '0')
  {
    var m := YearErrorPrefix + Text.IntToString(e.year);
    assert m[|YearErrorPrefix|..] == Text.IntToString(e.year);
    m
  }

  /** Gregorian leap-year rule, applied to every year (the proleptic calendar). */
  function IsLeapYear(y: int): (leap: bool)
    ensures y % 4 != 0 ==> !leap
    ensures y % 4 == 0 && y % 100 != 0 ==> leap
    ensures y % 100 == 0 ==> (leap <==> y % 400 == 0)
  {
    MultipleOf400(y);
    y % 4 == 0 && (y % 100 != 0 || y % 400 == 0)
  }

  /** A multiple of 400 is a century and a multiple of 4. */
  lemma MultipleOf400(y: int)
    ensures y % 400 == 0 ==> y % 100 == 0 && y % 4 == 0
  {
    if y % 400 == 0 {
      var q := y / 400;
      assert y == 400 * q;
      var c := y / 100;
      assert 100 * c <= y < 100 * c + 100;
      assert c == 4 * q;
      var f := y / 4;
      assert 4 * f <= y < 4 * f + 4;
      assert f == 100 * q;
    }
  }

  function DaysInMonth(y: int, m: int): (n: int)
    requires 1 <= m <= 12
    ensures 28 <= n <= 31
    ensures m == 2 ==> (n == 29 <==> IsLeapYear(y))
  {
    if m == 2 then (if IsLeapYear(y) then 29 else 28)
    else if m == 4 || m == 6 || m == 9 || m == 11 then 30
    else 31
  }

  /** The dates a LocalDate can hold. */
  function ValidDate(d: Date): (valid: bool)
    ensures valid ==> MinMonth <= ProlepticMonth(d) <= MaxMonth && 1 <= d.day <= 31
    ensures valid ==> (d.month == 2 && d.day == 29 ==> IsLeapYear(d.year))
  {
    && MinYear <= d.year <= MaxYear
    && 1 <= d.month <= 12
    && 1 <= d.day <= DaysInMonth(d.year, d.month)
  }

  /** Chronological order, LocalDate.isBefore. */
  function IsBefore(a: Date, b: Date): (before: bool)
    ensures ValidDate(a) && ValidDate(b) ==>
      (before <==> ProlepticMonth(a) < ProlepticMonth(b) || (ProlepticMonth(a) == ProlepticMonth(b) && a.day < b.day))
  {
    || a.year < b.year
    || (a.year == b.year && a.month < b.month)
    || (a.year == b.year && a.month == b.month && a.day < b.day)
  }

  /** Months counted from January of year 0 (LocalDate's "proleptic month"). */
  function ProlepticMonth(d: Date): int
  {
    d.year * 12 + (d.month - 1)
  }

  /** The proleptic months of the first and the last month a LocalDate can hold. */
  const MinMonth: int := MinYear * 12
  const MaxMonth: int := MaxYear * 12 + 11

  function Min(a: int, b: int): int
  {
    if a <= b then a else b
  }

  /**
   * LocalDate.plusMonths: move by whole months, then clamp the day to the
   * last day of the month reached (resolvePreviousValid).
   */
  function PlusMonths(d: Date, months: int): (r: Result<Date, DateError>)
    requires ValidDate(d)
    ensures r.Success? <==> MinMonth <= ProlepticMonth(d) + months <= MaxMonth
    ensures r.Success? ==> ValidDate(r.value) && ProlepticMonth(r.value) == ProlepticMonth(d) + months
    ensures r.Success? ==> r.value.day <= d.day
    ensures r.Success? ==> r.value.day == d.day || r.value.day == DaysInMonth(r.value.year, r.value.month)
  {
    if months == 0 then Success(d)
    else
      var total := ProlepticMonth(d) + months;
      var year := total / 12;
      var month := total % 12 + 1;
      if year < MinYear || year > MaxYear then Failure(YearOutOfRange(year))
      else Success(Date(year, month, Min(d.day, DaysInMonth(year, month))))
  }

  /**
   * LocalDate.plusYears: move the year, keep the month, clamp the day
   * (February 29 becomes February 28 in a common year).
   */
  function PlusYears(d: Date, years: int): (r: Result<Date, DateError>)
    requires ValidDate(d)
    ensures r.Success? ==> ValidDate(r.value) && r.value.month == d.month
    ensures r.Failure? ==> !(MinYear <= d.year + years <= MaxYear)
  {
    if years == 0 then Success(d)
    else
      var year := d.year + years;
      if year < MinYear || year > MaxYear then Failure(YearOutOfRange(year))
      else Success(Date(year, d.month, Min(d.day, DaysInMonth(year, d.month))))
  }

  /** Adding n years is adding 12 * n months, including the error raised on overflow. */
  lemma PlusYearsIsPlusMonths(d: Date, years: int)
    requires ValidDate(d)
    ensures PlusYears(d, years) == PlusMonths(d, 12 * years)
  {
    if years != 0 {
      var total := ProlepticMonth(d) + 12 * years;
      assert total == (d.year + years) * 12 + (d.month - 1);
      assert total / 12 == d.year + years;
      assert total % 12 + 1 == d.month;
    }
  }

  /** A later proleptic month is a later date, whatever the days. */
  lemma LaterMonthIsLater(a: Date, b: Date)
    requires ValidDate(a) && ValidDate(b)
    requires ProlepticMonth(a) < ProlepticMonth(b)
    ensures IsBefore(a, b)
  {
  }

  /** Moving forward by at least one month gives a strictly later date. */
  lemma PlusMonthsIsLater(d: Date, months: int)
    requires ValidDate(d) && months > 0
    ensures PlusMonths(d, months).Success? ==> IsBefore(d, PlusMonths(d, months).value)
  {
    if PlusMonths(d, months).Success? {
      LaterMonthIsLater(d, PlusMonths(d, months).value);
    }
  }

  /** The same, for whole years. */
  lemma PlusYearsIsLater(d: Date, years: int)
    requires ValidDate(d) && years > 0
    ensures PlusYears(d, years).Success? ==> IsBefore(d, PlusYears(d, years).value)
  {
    PlusYearsIsPlusMonths(d, years);
    PlusMonthsIsLater(d, 12 * years);
  }

  /** February 29 of a leap year plus one year is February 28. */
  lemma LeapDayPlusOneYear()
    ensures PlusYears(Date(2024, 2, 29), 1) == Success(Date(2025, 2, 28))
  {
  }
}
