/** WorkingDayServiceBuilder: the mutable, ordered list of sources a service is built from. */
module Builders {
  import opened Calendar
  import Sources
  import Service

  class WorkingDayServiceBuilder {
    /** The configured sources, in the order they were configured. */
    var sources: seq<Sources.Source>

    /** What a service built from the current sources would say of `date`. */
    ghost predicate WouldFlag(date: Date)
      reads this
    {
      Service.IsNonWorkingDay(Service.WorkingDayService(sources), date)
    }

    /** A new builder has no sources. */
    constructor ()
      ensures sources == []
    {
      sources := [];
    }

    /** Replaces every configured source by `source`; returns this same builder. */
    method UseSource(source: Sources.Source) returns (r: WorkingDayServiceBuilder)
      modifies this
      ensures r == this
      ensures sources == [source]
      ensures forall d :: WouldFlag(d) == Sources.IsNonWorkingDay(source, d)
    {
      sources := [source];
      r := this;
    }

    /** Appends `source` after the configured ones; returns this same builder. */
    method AddSource(source: Sources.Source) returns (r: WorkingDayServiceBuilder)
      modifies this
      ensures r == this
      ensures sources == old(sources) + [source]
      ensures forall d :: WouldFlag(d) == (old(WouldFlag(d)) || Sources.IsNonWorkingDay(source, d))
    {
      ghost var before := sources;
      sources := sources + [source];
      r := this;
      forall d
        ensures WouldFlag(d) == (Service.AnySourceFlags(before, d) || Sources.IsNonWorkingDay(source, d))
      {
        Service.AppendIsOr(before, source, d);
      }
    }

    /** A service holding a copy of the current sources: later changes to the
        builder cannot reach it. */
    method Build() returns (service: Service.WorkingDayService)
      ensures service.sources == sources
      ensures forall d :: Service.IsNonWorkingDay(service, d) == WouldFlag(d)
    {
      service := Service.WorkingDayService(sources);
    }
  }

  /** Building, then adding a source: the service built first still holds the
      sources it was built from and still gives their verdict. */
  method BuildThenAdd(builder: WorkingDayServiceBuilder, source: Sources.Source)
    returns (service: Service.WorkingDayService)
    modifies builder
    ensures service.sources == old(builder.sources)
    ensures builder.sources == old(builder.sources) + [source]
    ensures forall d :: Service.IsNonWorkingDay(service, d) == old(builder.WouldFlag(d))
  {
    service := builder.Build();
    var _ := builder.AddSource(source);
  }
}
