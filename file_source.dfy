/** FileNonWorkingDaySource and the builder method that configures it. The file
    system is the function `readFile`, which gives a file's whole content or a failure. */
module FileSource {
  import opened Calendar
  import opened Outcomes
  import Sources
  import opened Builders
  import StringSource

  /** A source whose state is the parse of the content of the file at `filePath`,
      read and parsed once here; a date is non-working iff `check(date, state)`
      holds. A failing read or parse yields no source. */
  function FileNonWorkingDaySource<T>(filePath: string, readFile: string -> Result<string>,
                                      parse: string -> Result<T>, check: (Date, T) -> bool)
    : (r: Result<Sources.Source>)
    ensures r.Success? <==> readFile(filePath).Success? && parse(readFile(filePath).value).Success?
    ensures r.Success? ==> r.value.FileBacked?
    ensures r.Success? ==> forall d :: Sources.IsNonWorkingDay(r.value, d) == check(d, parse(readFile(filePath).value).value)
  {
    match readFile(filePath)
    case Failure(e) => Failure(e)
    case Success(content) =>
      match parse(content)
      case Failure(e) => Failure(e)
      case Success(state) => Success(Sources.FileBacked(d => check(d, state)))
  }

  /** A file source judges every date as the string source built from the file's content does. */
  lemma FileSourceIsStringSourceOfContent<T>(filePath: string, readFile: string -> Result<string>,
                                             parse: string -> Result<T>, check: (Date, T) -> bool, date: Date)
    requires readFile(filePath).Success?
    ensures FileNonWorkingDaySource(filePath, readFile, parse, check).Success?
            == StringSource.StringNonWorkingDaySource(readFile(filePath).value, parse, check).Success?
    ensures FileNonWorkingDaySource(filePath, readFile, parse, check).Success? ==>
              Sources.IsNonWorkingDay(FileNonWorkingDaySource(filePath, readFile, parse, check).value, date)
              == Sources.IsNonWorkingDay(StringSource.StringNonWorkingDaySource(readFile(filePath).value, parse, check).value, date)
  {
  }

  /** Adds a file source after the builder's sources; if the file cannot be read
      or parsed the builder is left as it was. There is no replacing form: the
      number of sources never shrinks here. */
  method AddFileSource<T>(builder: WorkingDayServiceBuilder, filePath: string, readFile: string -> Result<string>,
                          parse: string -> Result<T>, check: (Date, T) -> bool)
    returns (r: Result<WorkingDayServiceBuilder>)
    modifies builder
    ensures r.Success? <==> readFile(filePath).Success? && parse(readFile(filePath).value).Success?
    ensures r.Failure? ==> builder.sources == old(builder.sources)
    ensures r.Success? ==> r.value == builder
    ensures r.Success? ==> builder.sources == old(builder.sources) + [FileNonWorkingDaySource(filePath, readFile, parse, check).value]
    ensures |builder.sources| >= |old(builder.sources)|
    ensures r.Success? ==> forall d :: builder.WouldFlag(d) == (old(builder.WouldFlag(d)) || check(d, parse(readFile(filePath).value).value))
  {
    var source := FileNonWorkingDaySource(filePath, readFile, parse, check);
    if source.Failure? {
      return Failure(source.error);
    }
    var same := builder.AddSource(source.value);
    r := Success(same);
  }
}
