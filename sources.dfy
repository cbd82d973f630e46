/** NonWorkingDaySource: a rule that judges a single date as non-working. */
module Sources {
  import opened Calendar

  /** The kinds of source. Every kind is immutable once built. A parsed source
      (string- or file-backed) holds the closure `d => check(d, state)` over the
      state its parser produced at construction, which is how a source of any
      state type `T` can sit in one list with the others. `Custom` stands for any
      other NonWorkingDaySource implementation, given by its verdict. */
  datatype Source =
    | DayOfTheWeekWorkingDays(working: set<Weekday>)
    | StringBacked(verdict: Date -> bool)
    | FileBacked(verdict: Date -> bool)
    | Custom(verdict: Date -> bool)

  /** Whether `source` flags `date` as a non-working day: a day-of-week source
      flags the weekdays outside its working set, and every other kind flags the
      dates its verdict holds for (for a parsed source, `check` returning true). */
  function IsNonWorkingDay(source: Source, date: Date): bool
  {
    match source
    case DayOfTheWeekWorkingDays(working) => WeekdayOf(date) !in working
    case StringBacked(verdict) => verdict(date)
    case FileBacked(verdict) => verdict(date)
    case Custom(verdict) => verdict(date)
  }
}
