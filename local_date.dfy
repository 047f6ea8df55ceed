/**
 * The part of java.time.LocalDate the expiry checks use: construction with
 * range checks, plusMonths(1), minusDays(1) and isBefore, on the proleptic
 * ISO calendar.
 */
module LocalDates {
  import opened Common

  const MIN_YEAR: int := -999_999_999
  const MAX_YEAR: int := 999_999_999

  datatype Date = Date(year: int, month: int, day: int)

  predicate IsLeapYear(y: int)
  {
    y % 4 == 0 && (y % 100 != 0 || y % 400 == 0)
  }

  function LengthOfMonth(y: int, m: int): (r: int)
    requires 1 <= m <= 12
    ensures 28 <= r <= 31
  {
    if m == 2 then (if IsLeapYear(y) then 29 else 28)
    else if m == 4 || m == 6 || m == 9 || m == 11 then 30
    else 31
  }

  /** A date LocalDate can represent. */
  predicate IsValidDate(d: Date)
  {
    MIN_YEAR <= d.year <= MAX_YEAR && 1 <= d.month <= 12 && 1 <= d.day <= LengthOfMonth(d.year, d.month)
  }

  /** LocalDate.of(y, m, d); None where it throws DateTimeException. */
  function Of(y: int, m: int, d: int): (r: Option<Date>)
    ensures r.Some? <==> IsValidDate(Date(y, m, d))
    ensures r.Some? ==> r.value == Date(y, m, d)
  {
    if IsValidDate(Date(y, m, d)) then Some(Date(y, m, d)) else None
  }

  /** plusMonths(1): the same day of the next month, clamped to that month's length;
    * None when that month lies past MAX_YEAR. */
  function PlusOneMonth(d: Date): (r: Option<Date>)
    requires IsValidDate(d)
    ensures r.Some? ==> IsValidDate(r.value)
    ensures r.None? <==> d.year == MAX_YEAR && d.month == 12
  {
    var y := if d.month == 12 then d.year + 1 else d.year;
    var m := if d.month == 12 then 1 else d.month + 1;
    if y > MAX_YEAR then None
    else Some(Date(y, m, if d.day <= LengthOfMonth(y, m) then d.day else LengthOfMonth(y, m)))
  }

  /** minusDays(1): the previous calendar day; None before MIN_YEAR. */
  function MinusOneDay(d: Date): (r: Option<Date>)
    requires IsValidDate(d)
    ensures r.Some? ==> IsValidDate(r.value) && IsBefore(r.value, d)
    ensures r.None? <==> d == Date(MIN_YEAR, 1, 1)
  {
    if d.day > 1 then Some(Date(d.year, d.month, d.day - 1))
    else if d.month > 1 then Some(Date(d.year, d.month - 1, LengthOfMonth(d.year, d.month - 1)))
    else if d.year > MIN_YEAR then Some(Date(d.year - 1, 12, 31))
    else None
  }

  /** isBefore: strictly earlier on the calendar. */
  predicate IsBefore(a: Date, b: Date)
  {
    a.year < b.year || (a.year == b.year && (a.month < b.month || (a.month == b.month && a.day < b.day)))
  }

  /** The first day of a month, moved one month on and one day back, is that month's last day. */
  lemma LastDayOfMonth(y: int, m: int)
    requires MIN_YEAR <= y <= MAX_YEAR && 1 <= m <= 12 && !(y == MAX_YEAR && m == 12)
    ensures Of(y, m, 1).Some?
    ensures PlusOneMonth(Of(y, m, 1).value).Some?
    ensures MinusOneDay(PlusOneMonth(Of(y, m, 1).value).value) == Some(Date(y, m, LengthOfMonth(y, m)))
  {
  }

  /** The last day of month (y, m) is not before a valid date `today` exactly when
    * (y, m) is not earlier than today's (year, month). */
  lemma LastDayNotBefore(y: int, m: int, today: Date)
    requires 1 <= m <= 12 && IsValidDate(today)
    ensures !IsBefore(Date(y, m, LengthOfMonth(y, m)), today)
      <==> (y > today.year || (y == today.year && m >= today.month))
  {
    if y == today.year && m == today.month {
      assert today.day <= LengthOfMonth(y, m);
    }
  }
}
