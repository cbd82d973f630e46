/** DayOfTheWeekWorkingDaySource and the builder methods that configure it. */
module DayOfWeekSource {
  import opened Calendar
  import Sources
  import opened Builders

  /** The working days a day-of-week source assumes when none are given. */
  const MondayToFriday: set<Weekday> := {Monday, Tuesday, Wednesday, Thursday, Friday}

  /** A source that treats `workingDays` as the working days: every other
      weekday is non-working. No set of days is refused, not even the empty one. */
  function DayOfTheWeekWorkingDaySource(workingDays: seq<Weekday>): (source: Sources.Source)
    ensures forall d :: Sources.IsNonWorkingDay(source, d) <==> WeekdayOf(d) !in workingDays
  {
    Sources.DayOfTheWeekWorkingDays(set day | day in workingDays)
  }

  /** The default day-of-week source: Saturday and Sunday are the non-working days. */
  function MondayToFridaySource(): (source: Sources.Source)
    ensures forall d :: Sources.IsNonWorkingDay(source, d) <==> WeekdayOf(d) == Saturday || WeekdayOf(d) == Sunday
  {
    Sources.DayOfTheWeekWorkingDays(MondayToFriday)
  }

  /** With no working days, every date is non-working. */
  lemma EmptyWorkingDaysFlagEveryDate(date: Date)
    ensures Sources.IsNonWorkingDay(DayOfTheWeekWorkingDaySource([]), date)
  {
  }

  /** The Monday to Friday source on the week of 2018-05-14: Monday and Tuesday
      are working, Saturday 2018-05-19 and Sunday 2018-05-20 are not. */
  lemma MondayToFridayInMay2018()
    ensures !Sources.IsNonWorkingDay(MondayToFridaySource(), FromCivil(2018, 5, 14))
    ensures !Sources.IsNonWorkingDay(MondayToFridaySource(), FromCivil(2018, 5, 15))
    ensures Sources.IsNonWorkingDay(MondayToFridaySource(), FromCivil(2018, 5, 19))
    ensures Sources.IsNonWorkingDay(MondayToFridaySource(), FromCivil(2018, 5, 20))
  {
    assert WeekdayOf(FromCivil(2018, 5, 19)) == Saturday;
    assert WeekdayOf(FromCivil(2018, 5, 20)) == Sunday;
  }

  /** Makes the builder use only a day-of-week source with the given working days. */
  method UseDayOfTheWeekSource(builder: WorkingDayServiceBuilder, workingDays: seq<Weekday>)
    returns (r: WorkingDayServiceBuilder)
    modifies builder
    ensures r == builder
    ensures builder.sources == [DayOfTheWeekWorkingDaySource(workingDays)]
    ensures forall d :: builder.WouldFlag(d) <==> WeekdayOf(d) !in workingDays
  {
    r := builder.UseSource(DayOfTheWeekWorkingDaySource(workingDays));
  }

  /** Adds a day-of-week source with the given working days after the builder's sources. */
  method AddDayOfTheWeekSource(builder: WorkingDayServiceBuilder, workingDays: seq<Weekday>)
    returns (r: WorkingDayServiceBuilder)
    modifies builder
    ensures r == builder
    ensures builder.sources == old(builder.sources) + [DayOfTheWeekWorkingDaySource(workingDays)]
    ensures forall d :: builder.WouldFlag(d) <==> old(builder.WouldFlag(d)) || WeekdayOf(d) !in workingDays
  {
    r := builder.AddSource(DayOfTheWeekWorkingDaySource(workingDays));
  }

  /** Makes the builder use only the Monday to Friday source. */
  method UseMondayToFridayDayOfTheWeekSource(builder: WorkingDayServiceBuilder)
    returns (r: WorkingDayServiceBuilder)
    modifies builder
    ensures r == builder
    ensures builder.sources == [MondayToFridaySource()]
    ensures forall d :: builder.WouldFlag(d) <==> WeekdayOf(d) == Saturday || WeekdayOf(d) == Sunday
  {
    r := builder.UseSource(MondayToFridaySource());
  }

  /** Adds the Monday to Friday source after the builder's sources. */
  method AddMondayToFridayDayOfTheWeekSource(builder: WorkingDayServiceBuilder)
    returns (r: WorkingDayServiceBuilder)
    modifies builder
    ensures r == builder
    ensures builder.sources == old(builder.sources) + [MondayToFridaySource()]
    ensures forall d :: builder.WouldFlag(d) <==> old(builder.WouldFlag(d)) || WeekdayOf(d) == Saturday || WeekdayOf(d) == Sunday
  {
    r := builder.AddSource(MondayToFridaySource());
  }
}
