/**
  Calendar dates and the two date steps the billing code takes with a JavaScript `Date`:
  `setMonth(getMonth() + 1)` and `setFullYear(getFullYear() + 1)`. Both hand the new
  (year, month, day) triple to MakeDay (ECMA-262, section 21.4.1), which counts the day
  number forward from the first of the month, so a day past the end of a short month
  carries into the next month (31 January plus one month is 3 March, or 2 March in a
  leap year). Dates are proleptic Gregorian; the time of day is not modelled.
 */
module Calendar {

  datatype YearMonthDay = YearMonthDay(year: int, month: int, day: int)

  predicate IsLeapYear(year: int) {
    year % 4 == 0 && (year % 100 != 0 || year % 400 == 0)
  }

  function DaysInMonth(year: int, month: int): (n: int)
    requires 1 <= month <= 12
    ensures 28 <= n <= 31
  {
    if month == 2 then (if IsLeapYear(year) then 29 else 28)
    else if month == 4 || month == 6 || month == 9 || month == 11 then 30
    else 31
  }

  predicate IsDate(d: YearMonthDay) {
    1 <= d.month <= 12 && 1 <= d.day <= DaysInMonth(d.year, d.month)
  }

  /** A day that exists in the calendar. */
  type Date = d: YearMonthDay | IsDate(d) witness YearMonthDay(1970, 1, 1)

  /** Strict chronological order. */
  predicate Before(a: YearMonthDay, b: YearMonthDay) {
    a.year < b.year || (a.year == b.year && (a.month < b.month || (a.month == b.month && a.day < b.day)))
  }

  /** The first day of the month after `month` of `year`. */
  function FollowingMonth(year: int, month: int): (r: Date)
    requires 1 <= month <= 12
    ensures r.day == 1 && Before(YearMonthDay(year, month, 31), r)
  {
    if month == 12 then YearMonthDay(year + 1, 1, 1) else YearMonthDay(year, month + 1, 1)
  }

  /** The calendar day after `d`. */
  function NextDay(d: Date): (r: Date)
    ensures Before(d, r)
  {
    if d.day < DaysInMonth(d.year, d.month) then d.(day := d.day + 1)
    else FollowingMonth(d.year, d.month)
  }

  /** The day `n` days after `d`, stepping one day at a time: the reference for MakeDay. */
  function AddDays(d: Date, n: nat): (r: Date)
    ensures n == 0 <==> r == d
    ensures n > 0 ==> Before(d, r)
  {
    if n == 0 then d else NextDay(AddDays(d, n - 1))
  }

  lemma {:induction false} AddDaysAdditive(d: Date, a: nat, b: nat)
    ensures AddDays(d, a + b) == AddDays(AddDays(d, a), b)
  {
    if b > 0 {
      AddDaysAdditive(d, a, b - 1);
    }
  }

  /** Inside one month, counting days is adding to the day number. */
  lemma {:induction false} AddDaysWithinMonth(year: int, month: int, k: nat)
    requires 1 <= month <= 12 && k < DaysInMonth(year, month)
    ensures AddDays(YearMonthDay(year, month, 1), k) == YearMonthDay(year, month, k + 1)
  {
    if k > 0 {
      AddDaysWithinMonth(year, month, k - 1);
    }
  }

  /** A whole month of days leads to the first of the following month. */
  lemma AddDaysWholeMonth(year: int, month: int)
    requires 1 <= month <= 12
    ensures AddDays(YearMonthDay(year, month, 1), DaysInMonth(year, month)) == FollowingMonth(year, month)
  {
    AddDaysWithinMonth(year, month, DaysInMonth(year, month) - 1);
  }

  /**
    MakeDay of ECMA-262: day number `day` of `month` in `year`, where a day number past
    the end of the month carries into the following months. It jumps a month at a time
    and is proved equal to counting `day - 1` single days from the first of the month.
   */
  function MakeDay(year: int, month: int, day: int): (r: Date)
    requires 1 <= month <= 12 && 1 <= day
    ensures r == AddDays(YearMonthDay(year, month, 1), day - 1)
    decreases day
  {
    var n := DaysInMonth(year, month);
    if day <= n then
      AddDaysWithinMonth(year, month, day - 1);
      YearMonthDay(year, month, day)
    else
      var next := FollowingMonth(year, month);
      AddDaysWholeMonth(year, month);
      AddDaysAdditive(YearMonthDay(year, month, 1), n, day - 1 - n);
      MakeDay(next.year, next.month, day - n)
  }

  /** `setMonth(getMonth() + 1)`: the same day number one month on, carried by MakeDay. */
  function AddOneMonth(d: Date): (r: Date)
    ensures Before(d, r)
    ensures var f := FollowingMonth(d.year, d.month);
      d.day <= DaysInMonth(f.year, f.month) <==> r == YearMonthDay(f.year, f.month, d.day)
    ensures var f := FollowingMonth(d.year, d.month);
      var g := FollowingMonth(f.year, f.month);
      d.day > DaysInMonth(f.year, f.month) ==> r == YearMonthDay(g.year, g.month, d.day - DaysInMonth(f.year, f.month))
  {
    var f := FollowingMonth(d.year, d.month);
    AddOneMonthShape(d, f);
    MakeDay(f.year, f.month, d.day)
  }

  lemma AddOneMonthShape(d: Date, f: Date)
    requires f == FollowingMonth(d.year, d.month)
    ensures var r := MakeDay(f.year, f.month, d.day);
      && Before(d, r)
      && (d.day <= DaysInMonth(f.year, f.month) ==> r == YearMonthDay(f.year, f.month, d.day))
      && (d.day > DaysInMonth(f.year, f.month) ==>
            var g := FollowingMonth(f.year, f.month);
            r == YearMonthDay(g.year, g.month, d.day - DaysInMonth(f.year, f.month)))
  {
    var n := DaysInMonth(f.year, f.month);
    if d.day <= n {
      AddDaysWithinMonth(f.year, f.month, d.day - 1);
    } else {
      var g := FollowingMonth(f.year, f.month);
      AddDaysWholeMonth(f.year, f.month);
      AddDaysAdditive(f, n, d.day - 1 - n);
      AddDaysWithinMonth(g.year, g.month, d.day - 1 - n);
    }
  }

  lemma LeapYearsAreApart(year: int)
    requires IsLeapYear(year)
    ensures !IsLeapYear(year + 1)
  {
    assert (year + 1) % 4 == 1;
  }

  /** `setFullYear(getFullYear() + 1)`: the same month and day one year on; 29 February carries to 1 March. */
  function AddOneYear(d: Date): (r: Date)
    ensures Before(d, r)
    ensures d.month == 2 && d.day == 29 ==> r == YearMonthDay(d.year + 1, 3, 1)
    ensures !(d.month == 2 && d.day == 29) ==> r == YearMonthDay(d.year + 1, d.month, d.day)
  {
    AddOneYearShape(d);
    MakeDay(d.year + 1, d.month, d.day)
  }

  lemma AddOneYearShape(d: Date)
    ensures var r := MakeDay(d.year + 1, d.month, d.day);
      if d.month == 2 && d.day == 29 then r == YearMonthDay(d.year + 1, 3, 1)
      else r == YearMonthDay(d.year + 1, d.month, d.day)
  {
    if d.month == 2 && d.day == 29 {
      LeapYearsAreApart(d.year);
      AddDaysWholeMonth(d.year + 1, 2);
    } else {
      AddDaysWithinMonth(d.year + 1, d.month, d.day - 1);
    }
  }
}
