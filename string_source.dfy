/** StringNonWorkingDaySource and the builder methods that configure it. */
module StringSource {
  import opened Calendar
  import opened Outcomes
  import Sources
  import Service
  import opened Builders

  /** A source whose state is `parse(content)`, computed once here; a date is
      non-working iff `check(date, state)` holds. A failing parse yields no source. */
  function StringNonWorkingDaySource<T>(content: string, parse: string -> Result<T>, check: (Date, T) -> bool)
    : (r: Result<Sources.Source>)
    ensures r.Success? <==> parse(content).Success?
    ensures r.Failure? ==> r.error == parse(content).error
    ensures r.Success? ==> r.value.StringBacked?
    ensures r.Success? ==> forall d :: Sources.IsNonWorkingDay(r.value, d) == check(d, parse(content).value)
  {
    match parse(content)
    case Failure(e) => Failure(e)
    case Success(state) => Success(Sources.StringBacked(d => check(d, state)))
  }

  /** Makes the builder use only a string source; if the source cannot be built
      the builder is left as it was. */
  method UseStringSource<T>(builder: WorkingDayServiceBuilder, content: string,
                            parse: string -> Result<T>, check: (Date, T) -> bool)
    returns (r: Result<WorkingDayServiceBuilder>)
    modifies builder
    ensures r.Success? <==> parse(content).Success?
    ensures r.Failure? ==> builder.sources == old(builder.sources)
    ensures r.Success? ==> r.value == builder
    ensures r.Success? ==> builder.sources == [StringNonWorkingDaySource(content, parse, check).value]
    ensures r.Success? ==> forall d :: builder.WouldFlag(d) == check(d, parse(content).value)
  {
    var source := StringNonWorkingDaySource(content, parse, check);
    if source.Failure? {
      return Failure(source.error);
    }
    var same := builder.UseSource(source.value);
    r := Success(same);
  }

  /** Adds a string source after the builder's sources; if the source cannot be
      built the builder is left as it was. */
  method AddStringSource<T>(builder: WorkingDayServiceBuilder, content: string,
                            parse: string -> Result<T>, check: (Date, T) -> bool)
    returns (r: Result<WorkingDayServiceBuilder>)
    modifies builder
    ensures r.Success? <==> parse(content).Success?
    ensures r.Failure? ==> builder.sources == old(builder.sources)
    ensures r.Success? ==> r.value == builder
    ensures r.Success? ==> builder.sources == old(builder.sources) + [StringNonWorkingDaySource(content, parse, check).value]
    ensures r.Success? ==> forall d :: builder.WouldFlag(d) == (old(builder.WouldFlag(d)) || check(d, parse(content).value))
  {
    var source := StringNonWorkingDaySource(content, parse, check);
    if source.Failure? {
      return Failure(source.error);
    }
    var same := builder.AddSource(source.value);
    r := Success(same);
  }

  /** Use, then Add, on a builder in any state: the service consults exactly the
      two string sources. If either source cannot be built, the failure is
      handed back. */
  method UseThenAdd<T, U>(builder: WorkingDayServiceBuilder,
                          first: string, parseFirst: string -> Result<T>, checkFirst: (Date, T) -> bool,
                          second: string, parseSecond: string -> Result<U>, checkSecond: (Date, U) -> bool)
    returns (r: Result<Service.WorkingDayService>)
    modifies builder
    ensures r.Success? <==> parseFirst(first).Success? && parseSecond(second).Success?
    ensures r.Success? ==> |r.value.sources| == 2
    ensures r.Success? ==> forall d :: Service.IsNonWorkingDay(r.value, d)
                                       == (checkFirst(d, parseFirst(first).value) || checkSecond(d, parseSecond(second).value))
  {
    var used := UseStringSource(builder, first, parseFirst, checkFirst);
    if used.Failure? {
      return Failure(used.error);
    }
    var added := AddStringSource(builder, second, parseSecond, checkSecond);
    if added.Failure? {
      return Failure(added.error);
    }
    var service := builder.Build();
    r := Success(service);
  }

  /** Add, then Use, on a builder in any state: the service consults only the
      string source used last. If either source cannot be built, the failure is
      handed back. */
  method AddThenUse<T, U>(builder: WorkingDayServiceBuilder,
                          first: string, parseFirst: string -> Result<T>, checkFirst: (Date, T) -> bool,
                          second: string, parseSecond: string -> Result<U>, checkSecond: (Date, U) -> bool)
    returns (r: Result<Service.WorkingDayService>)
    modifies builder
    ensures r.Success? <==> parseFirst(first).Success? && parseSecond(second).Success?
    ensures r.Success? ==> |r.value.sources| == 1
    ensures r.Success? ==> forall d :: Service.IsNonWorkingDay(r.value, d) == checkSecond(d, parseSecond(second).value)
  {
    var added := AddStringSource(builder, first, parseFirst, checkFirst);
    if added.Failure? {
      return Failure(added.error);
    }
    var used := UseStringSource(builder, second, parseSecond, checkSecond);
    if used.Failure? {
      return Failure(used.error);
    }
    var service := builder.Build();
    r := Success(service);
  }
}
