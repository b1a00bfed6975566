/**
 The Gregorian calendar behind Go's `time.Date` and `AddDate`.  A month is one integer,
 12 * year + month with January as 0; a day number counts days since 1 January of year 0.
 The leap rule is that of Appendix C of RFC 3339.
 */
module Calendar {

  predicate IsLeap(year: int) {
    year % 4 == 0 && (year % 100 != 0 || year % 400 == 0)
  }

  function MonthLen(month: int): (len: nat)
    ensures 28 <= len <= 31
  {
    var m := month % 12;
    if m == 1 then (if IsLeap(month / 12) then 29 else 28)
    else if m == 3 || m == 5 || m == 8 || m == 10 then 30
    else 31
  }

  /** The day number of a month's first day: the lengths of all months up to it. */
  function MonthStart(month: int): int
    decreases if month < 0 then -month else month
  {
    if month == 0 then 0
    else if month > 0 then MonthStart(month - 1) + MonthLen(month - 1)
    else MonthStart(month + 1) - MonthLen(month)
  }

  function SumOfLengths(month: int, n: nat): nat {
    if n == 0 then 0 else SumOfLengths(month, n - 1) + MonthLen(month + n - 1)
  }

  lemma NextMonth(month: int)
    ensures MonthStart(month + 1) == MonthStart(month) + MonthLen(month)
  {
  }

  lemma {:induction false} MonthStartIsSum(month: int, n: nat)
    ensures MonthStart(month + n) == MonthStart(month) + SumOfLengths(month, n)
    ensures 28 * n <= SumOfLengths(month, n) <= 31 * n
  {
    if n > 0 {
      MonthStartIsSum(month, n - 1);
      NextMonth(month + n - 1);
    }
  }

  // ---------------------------------------------------------- closed form

  function LeapsBefore(year: int): int {
    (year + 3) / 4 - (year + 99) / 100 + (year + 399) / 400
  }

  function DaysBeforeMonth(m: int): nat {
    match m
    case 0 => 0 case 1 => 31 case 2 => 59 case 3 => 90 case 4 => 120 case 5 => 151
    case 6 => 181 case 7 => 212 case 8 => 243 case 9 => 273 case 10 => 304 case _ => 334
  }

  /** Go's way to a month's first day: whole years, leap days, and a table of months. */
  function FastMonthStart(month: int): int {
    var y, m := month / 12, month % 12;
    365 * y + LeapsBefore(y) + DaysBeforeMonth(m) + (if IsLeap(y) && m >= 2 then 1 else 0)
  }

  lemma Every4(y: int)
    ensures (y + 4) / 4 == (y + 3) / 4 + (if y % 4 == 0 then 1 else 0)
  {
  }

  lemma Every100(y: int)
    ensures (y + 100) / 100 == (y + 99) / 100 + (if y % 100 == 0 then 1 else 0)
    ensures y % 100 == 0 ==> y % 4 == 0
  {
  }

  lemma Every400(y: int)
    ensures (y + 400) / 400 == (y + 399) / 400 + (if y % 400 == 0 then 1 else 0)
    ensures y % 400 == 0 ==> y % 100 == 0
  {
  }

  lemma LeapYearsAddUp(year: int)
    ensures LeapsBefore(year + 1) == LeapsBefore(year) + (if IsLeap(year) then 1 else 0)
  {
    Every4(year);
    Every100(year);
    Every400(year);
  }

  lemma FastNextMonth(month: int)
    ensures FastMonthStart(month + 1) == FastMonthStart(month) + MonthLen(month)
  {
    var y, m := month / 12, month % 12;
    if m == 11 {
      assert month + 1 == 12 * (y + 1);
      LeapYearsAddUp(y);
    } else {
      assert (month + 1) / 12 == y && (month + 1) % 12 == m + 1;
    }
  }

  /** The closed form is exactly the sum of the month lengths, before and after year 0. */
  lemma {:induction false} FastMonthStartIsSum(month: int)
    ensures FastMonthStart(month) == MonthStart(month)
    decreases if month < 0 then -month else month
  {
    if month > 0 {
      FastNextMonth(month - 1);
      FastMonthStartIsSum(month - 1);
    } else if month < 0 {
      FastNextMonth(month);
      FastMonthStartIsSum(month + 1);
    }
  }

  /** The calendar repeats after 400 years, which have 146097 days and so 97 leap years. */
  lemma FourHundredYears(month: int)
    ensures MonthStart(month + 4800) == MonthStart(month) + 146097
    ensures MonthLen(month + 4800) == MonthLen(month)
  {
    FastMonthStartIsSum(month);
    FastMonthStartIsSum(month + 4800);
    FastMonthStartIsSum(month + 1);
    FastMonthStartIsSum(month + 4801);
    FastFourHundredYears(month);
    FastFourHundredYears(month + 1);
    NextMonth(month);
    NextMonth(month + 4800);
  }

  lemma FastFourHundredYears(month: int)
    ensures FastMonthStart(month + 4800) == FastMonthStart(month) + 146097
  {
    var y := month / 12;
    assert (month + 4800) / 12 == y + 400 && (month + 4800) % 12 == month % 12;
    LeapCycle(y);
  }

  lemma LeapCycle(y: int)
    ensures LeapsBefore(y + 400) == LeapsBefore(y) + 97 && IsLeap(y + 400) == IsLeap(y)
  {
    Shift(y + 3, 4, 100);
    Shift(y + 99, 100, 4);
    Shift(y + 399, 400, 1);
    Shift(y, 4, 100);
    Shift(y, 100, 4);
    Shift(y, 400, 1);
  }

  lemma Shift(a: int, n: nat, k: nat)
    requires n == 4 || n == 100 || n == 400
    ensures (a + n * k) / n == a / n + k && (a + n * k) % n == a % n
  {
  }

  /** From 1901 to 2100 year y begins on day 365y + (y+3)/4 - 15, so 1970 on day 719528. */
  lemma YearBegins(y: int)
    requires 1901 <= y <= 2100
    ensures MonthStart(12 * y) == 365 * y + (y + 3) / 4 - 15
  {
    FastMonthStartIsSum(12 * y);
  }

  lemma MonthStartMonotone(a: int, b: int)
    ensures a < b ==> MonthStart(a) + 28 <= MonthStart(a + 1) <= MonthStart(b)
    ensures a <= b ==> MonthStart(a) <= MonthStart(b)
  {
    NextMonth(a);
    if a < b {
      MonthStartIsSum(a + 1, b - a - 1);
    }
  }

  // ---------------------------------------------------------------- dates

  datatype RawDate = Date(month: int, day: int)

  type Date = d: RawDate | 1 <= d.day <= MonthLen(d.month) witness Date(0, 1)

  function DayNumber(date: RawDate): int {
    MonthStart(date.month) + date.day - 1
  }

  /** `time.Date` with a day outside its month: 32 October is 1 November. */
  function Normalize(month: int, day: int): Date
    decreases if day < 1 then 1 - day else 0, if day > 0 then day else 0
  {
    if day < 1 then Normalize(month - 1, day + MonthLen(month - 1))
    else if day > MonthLen(month) then Normalize(month + 1, day - MonthLen(month))
    else Date(month, day)
  }

  /** Normalisation names the same day. */
  lemma {:induction false} NormalizeKeepsDay(month: int, day: int)
    ensures DayNumber(Normalize(month, day)) == MonthStart(month) + day - 1
    decreases if day < 1 then 1 - day else 0, if day > 0 then day else 0
  {
    if day < 1 {
      NormalizeKeepsDay(month - 1, day + MonthLen(month - 1));
      NextMonth(month - 1);
    } else if day > MonthLen(month) {
      NormalizeKeepsDay(month + 1, day - MonthLen(month));
      NextMonth(month);
    }
  }

  /** No two dates name the same day, and later months have later days. */
  lemma DayNumbersOrderDates(a: Date, b: Date)
    ensures DayNumber(a) < DayNumber(b) <==> a.month < b.month || (a.month == b.month && a.day < b.day)
    ensures DayNumber(a) == DayNumber(b) <==> a == b
  {
    NextMonth(a.month);
    NextMonth(b.month);
    MonthStartMonotone(a.month, b.month);
    MonthStartMonotone(b.month, a.month);
    MonthStartMonotone(a.month + 1, b.month);
    MonthStartMonotone(b.month + 1, a.month);
  }

  function FromDayNumber(n: int): Date {
    Normalize(0, n + 1)
  }

  /** Dates and day numbers are in one-to-one correspondence. */
  lemma DayNumberRoundTrip(n: int, date: Date)
    ensures DayNumber(FromDayNumber(n)) == n
    ensures FromDayNumber(DayNumber(date)) == date
  {
    NormalizeKeepsDay(0, n + 1);
    NormalizeKeepsDay(0, DayNumber(date) + 1);
    DayNumbersOrderDates(FromDayNumber(DayNumber(date)), date);
  }

  // -------------------------------------------------------------- AddDate

  function AddDate(date: Date, years: int, months: int, days: int): Date {
    Normalize(date.month + 12 * years + months, date.day + days)
  }

  lemma AddDays(date: Date, n: int)
    ensures DayNumber(AddDate(date, 0, 0, n)) == DayNumber(date) + n
  {
    NormalizeKeepsDay(date.month, date.day + n);
  }

  /** Where day d lands in a month that may be too short for it. */
  function Landed(month: int, d: int): Date
    requires 1 <= d <= 31
  {
    if d <= MonthLen(month) then Date(month, d) else Date(month + 1, d - MonthLen(month))
  }

  /**
   Adding months keeps the day of month when the target month has it; otherwise the date
   spills into the following month, on a day from 1 to 3.
   */
  lemma AddMonthsLandsOn(date: Date, months: int)
    ensures AddDate(date, 0, months, 0) == Landed(date.month + months, date.day)
    ensures DayNumber(AddDate(date, 0, months, 0)) == MonthStart(date.month + months) + date.day - 1
    ensures date.day > MonthLen(date.month + months) ==> 1 <= AddDate(date, 0, months, 0).day <= 3
  {
    NormalizeKeepsDay(date.month + months, date.day);
  }

  lemma TwelveMonths(month: int)
    ensures 365 <= MonthStart(month + 12) - MonthStart(month) <= 366
  {
    FastMonthStartIsSum(month);
    FastMonthStartIsSum(month + 12);
    FastTwelveMonths(month);
  }

  lemma FastTwelveMonths(month: int)
    ensures 365 <= FastMonthStart(month + 12) - FastMonthStart(month) <= 366
  {
    var y, m := month / 12, month % 12;
    assert (month + 12) / 12 == y + 1 && (month + 12) % 12 == m;
    LeapYearsAddUp(y);
    LeapYearsAddUp(y + 1);
  }

  lemma {:induction false} YearsLast(month: int, n: nat)
    ensures 365 * n <= MonthStart(month + 12 * n) - MonthStart(month) <= 366 * n
  {
    if n > 0 {
      YearsLast(month, n - 1);
      TwelveMonths(month + 12 * (n - 1));
    }
  }
}
