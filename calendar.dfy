/** Days of the week and civil dates, as far as the sources need them. */
module Calendar {

  /** The days of the week, in the order of .NET's DayOfWeek (Sunday is 0). */
  datatype Weekday = Sunday | Monday | Tuesday | Wednesday | Thursday | Friday | Saturday

  /** A civil date, as the number of days since 0001-01-01 of the proleptic
      Gregorian calendar (that day was a Monday). The time of day is dropped
      (see README, Left out); sources are meant to judge the calendar date only. */
  datatype Date = Date(dayNumber: int)

  /** The weekday of a date: day 0 is a Monday, so Sunday falls on the days
      whose number plus one is a multiple of seven. */
  function WeekdayOf(date: Date): Weekday
  {
    var k := (date.dayNumber + 1) % 7;
    if k == 0 then Sunday
    else if k == 1 then Monday
    else if k == 2 then Tuesday
    else if k == 3 then Wednesday
    else if k == 4 then Thursday
    else if k == 5 then Friday
    else Saturday
  }

  predicate IsLeapYear(year: int)
  {
    year % 4 == 0 && (year % 100 != 0 || year % 400 == 0)
  }

  function DaysInMonth(year: int, month: int): int
    requires 1 <= month <= 12
  {
    if month == 2 then (if IsLeapYear(year) then 29 else 28)
    else if month == 4 || month == 6 || month == 9 || month == 11 then 30
    else 31
  }

  /** Days in the months of `year` before `month`. */
  function DaysBeforeMonth(year: int, month: int): int
    requires 1 <= month <= 12
  {
    if month == 1 then 0 else DaysBeforeMonth(year, month - 1) + DaysInMonth(year, month - 1)
  }

  predicate IsCivilDate(year: int, month: int, day: int)
  {
    1 <= year <= 9999 && 1 <= month <= 12 && 1 <= day <= DaysInMonth(year, month)
  }

  /** The date `year`-`month`-`day`, counted the way a .NET DateTime counts its days. */
  function FromCivil(year: int, month: int, day: int): Date
    requires IsCivilDate(year, month, day)
  {
    var y := year - 1;
    Date(y * 365 + y / 4 - y / 100 + y / 400 + DaysBeforeMonth(year, month) + day - 1)
  }
}
