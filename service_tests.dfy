/** The cases that fix how WorkingDayService combines its sources, stated as lemmas. */
module ServiceTests {
  import opened Calendar
  import Sources
  import opened Service

  /** A test source that flags Mondays. */
  function MondayNonWorkingDayTestSource(): (source: Sources.Source)
    ensures forall d :: Sources.IsNonWorkingDay(source, d) <==> WeekdayOf(d) == Monday
  {
    Sources.Custom(d => WeekdayOf(d) == Monday)
  }

  /** A test source that flags Tuesdays. */
  function TuesdayNonWorkingDayTestSource(): (source: Sources.Source)
    ensures forall d :: Sources.IsNonWorkingDay(source, d) <==> WeekdayOf(d) == Tuesday
  {
    Sources.Custom(d => WeekdayOf(d) == Tuesday)
  }

  lemma May14Of2018IsAMonday()
    ensures WeekdayOf(FromCivil(2018, 5, 14)) == Monday
    ensures WeekdayOf(FromCivil(2018, 5, 15)) == Tuesday
  {
  }

  /** With no sources, no date at all is non-working. */
  lemma NoSourcesNoDayIsNonWorking(date: Date)
    ensures !IsNonWorkingDay(WorkingDayService([]), date)
  {
  }

  /** A Monday source leaves Tuesday 2018-05-15 a working day. */
  lemma OneSourceWorkingDayIsWorking()
    ensures IsWorkingDay(WorkingDayService([MondayNonWorkingDayTestSource()]), FromCivil(2018, 5, 15))
  {
    May14Of2018IsAMonday();
  }

  /** A Monday source makes Monday 2018-05-14 non-working. */
  lemma OneSourceNonWorkingDayIsNonWorking()
    ensures IsNonWorkingDay(WorkingDayService([MondayNonWorkingDayTestSource()]), FromCivil(2018, 5, 14))
  {
    May14Of2018IsAMonday();
  }

  /** With a Monday and a Tuesday source, neither 2018-05-14 nor 2018-05-15 is working. */
  lemma MultipleSourcesNoFlaggedDayIsWorking()
    ensures !IsWorkingDay(WorkingDayService([MondayNonWorkingDayTestSource(), TuesdayNonWorkingDayTestSource()]), FromCivil(2018, 5, 14))
    ensures !IsWorkingDay(WorkingDayService([MondayNonWorkingDayTestSource(), TuesdayNonWorkingDayTestSource()]), FromCivil(2018, 5, 15))
  {
    May14Of2018IsAMonday();
    TwoSourcesIsOr(MondayNonWorkingDayTestSource(), TuesdayNonWorkingDayTestSource(), FromCivil(2018, 5, 14));
    TwoSourcesIsOr(MondayNonWorkingDayTestSource(), TuesdayNonWorkingDayTestSource(), FromCivil(2018, 5, 15));
  }

  /** With a Monday and a Tuesday source, one objecting source makes each of
      2018-05-14 and 2018-05-15 non-working. */
  lemma MultipleSourcesAnyFlaggedDayIsNonWorking()
    ensures IsNonWorkingDay(WorkingDayService([MondayNonWorkingDayTestSource(), TuesdayNonWorkingDayTestSource()]), FromCivil(2018, 5, 14))
    ensures IsNonWorkingDay(WorkingDayService([MondayNonWorkingDayTestSource(), TuesdayNonWorkingDayTestSource()]), FromCivil(2018, 5, 15))
  {
    May14Of2018IsAMonday();
    TwoSourcesIsOr(MondayNonWorkingDayTestSource(), TuesdayNonWorkingDayTestSource(), FromCivil(2018, 5, 14));
    TwoSourcesIsOr(MondayNonWorkingDayTestSource(), TuesdayNonWorkingDayTestSource(), FromCivil(2018, 5, 15));
  }
}
