/** WorkingDayService: a fixed list of sources, OR-ed into one verdict. */
module Service {
  import opened Calendar
  import Sources

  /** The service is a value: once made from a list it cannot change. */
  datatype WorkingDayService = WorkingDayService(sources: seq<Sources.Source>)

  /** Whether at least one of `sources` flags `date`, looked at one source after
      the other as an "any" over the list. */
  function AnySourceFlags(sources: seq<Sources.Source>, date: Date): (r: bool)
    ensures r <==> exists i :: 0 <= i < |sources| && Sources.IsNonWorkingDay(sources[i], date)
  {
    if |sources| == 0 then false
    else if Sources.IsNonWorkingDay(sources[0], date) then true
    else
      var rest := AnySourceFlags(sources[1..], date);
      assert forall i :: 0 < i < |sources| ==> sources[i] == sources[1..][i - 1];
      rest
  }

  /** A date is non-working iff some source of the service flags it. */
  function IsNonWorkingDay(service: WorkingDayService, date: Date): (r: bool)
    ensures r <==> exists i :: 0 <= i < |service.sources| && Sources.IsNonWorkingDay(service.sources[i], date)
    ensures service.sources == [] ==> !r
  {
    AnySourceFlags(service.sources, date)
  }

  /** A date is working iff no source of the service flags it. */
  function IsWorkingDay(service: WorkingDayService, date: Date): (r: bool)
    ensures r <==> forall i :: 0 <= i < |service.sources| ==> !Sources.IsNonWorkingDay(service.sources[i], date)
  {
    !IsNonWorkingDay(service, date)
  }

  /** Working and non-working are exact complements: there is no third state. */
  lemma WorkingIsComplement(service: WorkingDayService, date: Date)
    ensures IsWorkingDay(service, date) != IsNonWorkingDay(service, date)
  {
  }

  /** The verdict over two lists joined is the OR of the verdicts over each. */
  lemma {:induction false} ConcatIsOr(s: seq<Sources.Source>, t: seq<Sources.Source>, date: Date)
    ensures AnySourceFlags(s + t, date) == (AnySourceFlags(s, date) || AnySourceFlags(t, date))
  {
    if |s| > 0 {
      assert (s + t)[1..] == s[1..] + t;
      ConcatIsOr(s[1..], t, date);
    } else {
      assert s + t == t;
    }
  }

  /** Appending a source ORs its verdict into the service's. */
  lemma AppendIsOr(s: seq<Sources.Source>, source: Sources.Source, date: Date)
    ensures AnySourceFlags(s + [source], date) == (AnySourceFlags(s, date) || Sources.IsNonWorkingDay(source, date))
  {
    ConcatIsOr(s, [source], date);
  }

  /** Two sources: the service flags exactly what either of them flags. */
  lemma TwoSourcesIsOr(a: Sources.Source, b: Sources.Source, date: Date)
    ensures IsNonWorkingDay(WorkingDayService([a, b]), date)
            == (Sources.IsNonWorkingDay(a, date) || Sources.IsNonWorkingDay(b, date))
  {
    assert [a, b] == [a] + [b];
    AppendIsOr([a], b, date);
  }

  /** The order in which two groups of sources were configured does not matter. */
  lemma ConcatOrderIrrelevant(s: seq<Sources.Source>, t: seq<Sources.Source>, date: Date)
    ensures IsNonWorkingDay(WorkingDayService(s + t), date) == IsNonWorkingDay(WorkingDayService(t + s), date)
  {
    ConcatIsOr(s, t, date);
    ConcatIsOr(t, s, date);
  }

  /** Two lists holding the same sources, in any order and with any repetition,
      give the same verdict. */
  lemma SameSourcesSameVerdict(s: seq<Sources.Source>, t: seq<Sources.Source>, date: Date)
    requires forall i :: 0 <= i < |s| ==> exists j :: 0 <= j < |t| && t[j] == s[i]
    requires forall j :: 0 <= j < |t| ==> exists i :: 0 <= i < |s| && s[i] == t[j]
    ensures IsNonWorkingDay(WorkingDayService(s), date) == IsNonWorkingDay(WorkingDayService(t), date)
  {
  }

  /** More sources never turn a non-working day into a working one. */
  lemma {:induction false} MoreSourcesMoreNonWorkingDays(s: seq<Sources.Source>, t: seq<Sources.Source>, date: Date)
    requires IsNonWorkingDay(WorkingDayService(s), date)
    ensures IsNonWorkingDay(WorkingDayService(s + t), date)
  {
    ConcatIsOr(s, t, date);
  }
}
