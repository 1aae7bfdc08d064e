/**
 * Calendar dates as JavaScript's Date getters see them: a year, a month numbered 0 (January)
 * to 11 (December) and a day of the month, in the proleptic Gregorian calendar.
 */
module Calendar {

  datatype Date = Date(year: int, month: int, day: int)
  {
    predicate Valid()
    {
      0 <= month < 12 && 1 <= day <= DaysInMonth(year, month)
    }
  }

  /** A date that exists in the calendar; every Date object denotes one. */
  type CalendarDate = d: Date | d.Valid() witness Date(1970, 0, 1)

  predicate IsLeapYear(y: int)
  {
    (y % 4 == 0 && y % 100 != 0) || y % 400 == 0
  }

  function DaysInMonth(y: int, m: int): (n: int)
    requires 0 <= m < 12
    ensures 28 <= n <= 31
    ensures n == 28 <==> m == 1 && !IsLeapYear(y)
  {
    if m == 1 then (if IsLeapYear(y) then 29 else 28)
    else if m == 3 || m == 5 || m == 8 || m == 10 then 30
    else 31
  }

  /** Months since the start of year 0; consecutive calendar months have consecutive indices. */
  function MonthIndex(d: Date): int
  {
    d.year * 12 + d.month
  }

  /**
   * The date JavaScript builds for day `day` of the month with index `index` (as `setMonth` and
   * `setFullYear` do): the month index may be any integer, and a day past the end of that month
   * rolls over into the next one.
   */
  function Compose(index: int, day: int): (r: CalendarDate)
    requires 1 <= day <= 31
    ensures day <= DaysInMonth(index / 12, index % 12) ==> MonthIndex(r) == index && r.day == day
    ensures day > DaysInMonth(index / 12, index % 12) ==>
              MonthIndex(r) == index + 1 && r.day == day - DaysInMonth(index / 12, index % 12)
  {
    var y, m := index / 12, index % 12;
    if day <= DaysInMonth(y, m) then Date(y, m, day)
    else Date((index + 1) / 12, (index + 1) % 12, day - DaysInMonth(y, m))
  }

  /** `d.setMonth(m)`: the same day in month `m` counted from January of `d`'s year. */
  function SetMonth(d: CalendarDate, m: int): (r: CalendarDate)
    ensures MonthIndex(r) == d.year * 12 + m || MonthIndex(r) == d.year * 12 + m + 1
  {
    Compose(d.year * 12 + m, d.day)
  }

  /** `d.setFullYear(y)`: the same month and day in year `y`. */
  function SetFullYear(d: CalendarDate, y: int): (r: CalendarDate)
    ensures d.day <= DaysInMonth(y, d.month) ==> r == Date(y, d.month, d.day)
    ensures d.day > DaysInMonth(y, d.month) ==> d.month == 1 && d.day == 29 && r == Date(y, 2, 1)
  {
    var r := Compose(y * 12 + d.month, d.day);
    assert (y * 12 + d.month) / 12 == y && (y * 12 + d.month) % 12 == d.month;
    r
  }

  /** Moving to the next month always lands in a later calendar month, at most two months on. */
  lemma NextMonthAdvances(d: CalendarDate)
    ensures MonthIndex(d) < MonthIndex(SetMonth(d, d.month + 1)) <= MonthIndex(d) + 2
  {
  }
}
