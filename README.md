# Working-day service: a verified model of its configuration surface

The working-day service answers, for a calendar date, whether it is a working day.
It asks a list of independent *non-working-day sources* and treats a date as
non-working as soon as one of them flags it. This project models that core in Dafny:

- a **source** (`Sources.Source`) is one of three kinds. A *day-of-week* source
  holds a set of working weekdays and flags every other weekday. A
  *string-backed* source and a *file-backed* source each hold a state that a
  caller-supplied `parse` built once, at construction, and flag a date when the
  caller-supplied `check(date, state)` holds. A fourth kind, `Custom`, stands
  for any other source by its verdict; the tests use it for their Monday and
  Tuesday sources;
- the **builder** (`Builders.WorkingDayServiceBuilder`) is a class that owns an
  ordered `seq` of sources. `UseSource` replaces the whole list with one source.
  `AddSource` appends one. Both return the builder itself. `Build` copies the
  list into a service;
- the **service** (`Service.WorkingDayService`) is an immutable value holding a
  list of sources. `IsNonWorkingDay` is the OR over its sources, and
  `IsWorkingDay` is its negation;
- the **extension methods** (`DayOfWeekSource`, `StringSource`, `FileSource`)
  build one source and then replace or append it, as their names say.

A parse that throws, and a file that cannot be read, are modelled as the
`Failure` case of `Outcomes.Result`. The source is then never built, the
builder keeps its list, and the failure is handed back to the caller. The file
system is the parameter `readFile`, a function from a path to the file's
content or a failure.

Dates are day numbers counted from 0001-01-01 (a Monday), as .NET's `DateTime`
counts them. `Calendar.FromCivil` turns a year, month and day into that number,
and `Calendar.WeekdayOf` gives the weekday in .NET's `DayOfWeek` order.

Two doc-comment points needed a decision. For the string source, the model follows the class and type names and the file variant's documentation of `check`. For `WithSource`, it follows that method's own documentation, which promises append semantics:
- `StringSourceExtensions.cs:19-21,31-33` were copied from the file variant.
  They call the string a file path and say that `check` decides a "Working
  Day". The string is modelled as the content itself. `check` returning true
  means *non-working*, as `FileSourceExtensions.cs:22-23` says and as the
  type the sources are registered under, `NonWorkingDaySource`, names it.
- `FileSourceExtensions.cs:27` calls `WithSource`. Its documentation
  (`:16`, `:24`) says the new source comes "in addition to any current sources",
  so `AddFileSource` appends through `AddSource`.

## Model

| member | source | states |
|---|---|---|
| `Service.AnySourceFlags` | src/Tools.WorkingDayService.Tests/WorkingDayServiceIsNonWorkingDayTests.cs:46-55 | Looking at the sources one after the other answers true iff some source in the list flags the date. |
| `Service.IsNonWorkingDay` | src/Tools.WorkingDayService.Tests/WorkingDayServiceIsNonWorkingDayTests.cs:17-21 | A date is non-working iff at least one source of the service flags it; with no sources, never. |
| `Service.IsWorkingDay` | src/Tools.WorkingDayService.Tests/WorkingDayServiceIsNonWorkingDayTests.cs:35-44 | A date is working iff no source of the service flags it. |
| `Service.WorkingIsComplement` | src/Tools.WorkingDayService.Tests/WorkingDayServiceIsNonWorkingDayTests.cs:27-54 | `IsWorkingDay` is always the exact negation of `IsNonWorkingDay`. |
| `Service.ConcatIsOr` | src/Tools.WorkingDayService.Tests/WorkingDayServiceIsNonWorkingDayTests.cs:46-55 | The verdict over two lists joined is the OR of the verdicts over each list. |
| `Service.AppendIsOr` | src/Tools.WorkingDayService.Tests/WorkingDayServiceIsNonWorkingDayTests.cs:46-55 | Appending a source ORs that source's verdict into the list's verdict. |
| `Service.TwoSourcesIsOr` | src/Tools.WorkingDayService.Tests/WorkingDayServiceIsNonWorkingDayTests.cs:50-55 | A service of sources A and B flags exactly the dates that A or B flags. |
| `Service.ConcatOrderIrrelevant` | src/Tools.WorkingDayService.Tests/WorkingDayServiceIsNonWorkingDayTests.cs:41-52 | Configuring two groups of sources in either order gives the same verdict. |
| `Service.SameSourcesSameVerdict` | src/Tools.WorkingDayService.Tests/WorkingDayServiceIsNonWorkingDayTests.cs:41-52 | Two lists holding the same sources, in any order and with any repetition, agree on every date. |
| `Service.MoreSourcesMoreNonWorkingDays` | src/Tools.WorkingDayService.Tests/WorkingDayServiceIsNonWorkingDayTests.cs:46-55 | Adding sources never turns a non-working day into a working one. |
| `ServiceTests.MondayNonWorkingDayTestSource` | src/Tools.WorkingDayService.Tests/WorkingDayServiceIsNonWorkingDayTests.cs:27 | The Monday test source flags exactly the Mondays. |
| `ServiceTests.TuesdayNonWorkingDayTestSource` | src/Tools.WorkingDayService.Tests/WorkingDayServiceIsNonWorkingDayTests.cs:41 | The Tuesday test source flags exactly the Tuesdays. |
| `ServiceTests.NoSourcesNoDayIsNonWorking` | src/Tools.WorkingDayService.Tests/WorkingDayServiceIsNonWorkingDayTests.cs:18-21 | A service without sources treats no date as non-working. |
| `ServiceTests.OneSourceWorkingDayIsWorking` | src/Tools.WorkingDayService.Tests/WorkingDayServiceIsNonWorkingDayTests.cs:24-27 | With only the Monday source, Tuesday 2018-05-15 is a working day. |
| `ServiceTests.OneSourceNonWorkingDayIsNonWorking` | src/Tools.WorkingDayService.Tests/WorkingDayServiceIsNonWorkingDayTests.cs:30-33 | With only the Monday source, Monday 2018-05-14 is non-working. |
| `ServiceTests.MultipleSourcesNoFlaggedDayIsWorking` | src/Tools.WorkingDayService.Tests/WorkingDayServiceIsNonWorkingDayTests.cs:35-44 | With the Monday and Tuesday sources, neither 2018-05-14 nor 2018-05-15 is a working day. |
| `ServiceTests.MultipleSourcesAnyFlaggedDayIsNonWorking` | src/Tools.WorkingDayService.Tests/WorkingDayServiceIsNonWorkingDayTests.cs:46-55 | With the Monday and Tuesday sources, both 2018-05-14 and 2018-05-15 are non-working, since one objecting source suffices. |
| `Builders.WorkingDayServiceBuilder.UseSource` | src/CR.WorkingDayService.DayOfWeekSource/DayOfTheWeekSourceExtensions.cs:21 | Afterwards the list is exactly the one new source, and the builder's verdict is that source's. The result is the same builder. |
| `Builders.WorkingDayServiceBuilder.AddSource` | src/CR.WorkingDayService.DayOfWeekSource/DayOfTheWeekSourceExtensions.cs:29 | Afterwards the list is the old list with the source appended, and the verdict is the old verdict OR the new source's. The result is the same builder. |
| `Sources.IsNonWorkingDay` | src/CR.WorkingDayService.DayOfWeekSource/DayOfTheWeekSourceExtensions.cs:16-19 | Defines a source's verdict: a day-of-week source flags a date iff its weekday is outside the working set; a string-, file-backed or other source flags a date iff its verdict holds for it, so `check` returning true means non-working, as `FileSourceExtensions.cs:22-23` says. |
| `Builders.WorkingDayServiceBuilder.constructor` | src/CR.WorkingDayService.DayOfWeekSource/DayOfTheWeekSourceExtensions.cs:11 | A new builder holds no sources. The builder's own code is not among the modelled files. |
| `Builders.WorkingDayServiceBuilder.Build` | src/Tools.WorkingDayService.Tests/WorkingDayServiceIsNonWorkingDayTests.cs:21 | The service holds a copy of the builder's current list and gives the verdict the builder's list gives. `Build` is not among the modelled files; it is modelled as a snapshot into the service value, which the tests make directly from a list. |
| `Builders.BuildThenAdd` | src/Tools.WorkingDayService.Tests/WorkingDayServiceIsNonWorkingDayTests.cs:21 | A service built before a later `AddSource` keeps the sources it was built from and their verdict; only the builder grows. |
| `DayOfWeekSource.DayOfTheWeekWorkingDaySource` | src/CR.WorkingDayService.DayOfWeekSource/DayOfTheWeekSourceExtensions.cs:16-19 | A date is non-working iff its weekday is not among the given working days; any list of days, even an empty one, is accepted. |
| `DayOfWeekSource.MondayToFridaySource` | src/CR.WorkingDayService.DayOfWeekSource/DayOfTheWeekSourceExtensions.cs:32-43 | The default source flags exactly Saturdays and Sundays. |
| `DayOfWeekSource.EmptyWorkingDaysFlagEveryDate` | src/CR.WorkingDayService.DayOfWeekSource/DayOfTheWeekSourceExtensions.cs:19-21 | With no working days, every date is non-working. |
| `DayOfWeekSource.MondayToFridayInMay2018` | src/CR.WorkingDayService.DayOfWeekSource/DayOfTheWeekSourceExtensions.cs:32-36 | The default source treats 2018-05-14 and 2018-05-15 as working and 2018-05-19 and 2018-05-20 as non-working. |
| `DayOfWeekSource.UseDayOfTheWeekSource` | src/CR.WorkingDayService.DayOfWeekSource/DayOfTheWeekSourceExtensions.cs:15-21 | The builder is left with exactly the new day-of-week source, whatever it held before. It then flags a date iff the date's weekday is not a working day. The result is the same builder. |
| `DayOfWeekSource.AddDayOfTheWeekSource` | src/CR.WorkingDayService.DayOfWeekSource/DayOfTheWeekSourceExtensions.cs:23-29 | The new source is appended and the earlier ones are kept in order. A date is flagged iff it was flagged before or its weekday is not a working day. The result is the same builder. |
| `DayOfWeekSource.UseMondayToFridayDayOfTheWeekSource` | src/CR.WorkingDayService.DayOfWeekSource/DayOfTheWeekSourceExtensions.cs:31-36 | The builder is left with exactly the Monday to Friday source, so it flags exactly Saturdays and Sundays. The result is the same builder. |
| `DayOfWeekSource.AddMondayToFridayDayOfTheWeekSource` | src/CR.WorkingDayService.DayOfWeekSource/DayOfTheWeekSourceExtensions.cs:38-43 | The Monday to Friday source is appended and the earlier ones are kept. Saturdays and Sundays join the flagged dates. The result is the same builder. |
| `StringSource.StringNonWorkingDaySource` | src/CR.WorkingDayService.StringSource/StringSourceExtensions.cs:17-24 | The source exists iff `parse` succeeds on the string, and a failure carries the parser's error. The source flags a date iff `check(date, parse(string))` holds. |
| `StringSource.UseStringSource` | src/CR.WorkingDayService.StringSource/StringSourceExtensions.cs:14-24 | It succeeds iff parsing succeeds. On success the builder holds exactly the new string source and flags what `check` flags. On failure the builder's list is unchanged. The result is the same builder. |
| `StringSource.AddStringSource` | src/CR.WorkingDayService.StringSource/StringSourceExtensions.cs:26-36 | It succeeds iff parsing succeeds. On success the new source is appended after the unchanged earlier ones and its verdict is OR-ed in. On failure the builder's list is unchanged. The result is the same builder. |
| `StringSource.UseThenAdd` | src/CR.WorkingDayService.StringSource/StringSourceExtensions.cs:14-36 | On a builder in any state, Use followed by Add gives a service with exactly two sources, which flags what either check flags; it fails iff either parse fails. |
| `StringSource.AddThenUse` | src/CR.WorkingDayService.StringSource/StringSourceExtensions.cs:14-36 | On a builder in any state, Add followed by Use gives a service with only the last source, which flags exactly what its check flags; it fails iff either parse fails. |
| `FileSource.FileNonWorkingDaySource` | src/Tools.WorkingDayService/FileSource/FileSourceExtensions.cs:19-23 | The source exists iff the file can be read and its content parsed. It flags a date iff `check(date, parse(content))` holds, and true means non-working. |
| `FileSource.FileSourceIsStringSourceOfContent` | src/Tools.WorkingDayService/FileSource/FileSourceExtensions.cs:20-23 | Once the file is read, the file source judges every date as the string source built from that content does. |
| `FileSource.AddFileSource` | src/Tools.WorkingDayService/FileSource/FileSourceExtensions.cs:15-27 | It succeeds iff reading and parsing succeed. On success one source is appended after the unchanged earlier ones and its verdict is OR-ed in. On failure the builder is unchanged. The number of sources never shrinks. The result is the same builder. |

## Left out

- Reading a file: the file system is the parameter `readFile`, which returns a file's content or a failure.
- The bodies of the caller's `parse` and `check` functions are function values over a generic state type. A throwing `parse` is a `Failure` result. A `check` that throws at query time is not modelled: `check` is total.
- Exception types and messages: a failure carries the error string of whatever failed.
- `DateTime`: the time of day is dropped, and only dates from year 1 to 9999 can be written with `FromCivil`. `DateTime.Now` (`WorkingDayServiceIsNonWorkingDayTests.cs:21`) becomes an arbitrary date.
- The plural builder operations `UseSources`/`AddSources` are left out. The code of the builder, service and source classes is not among the modelled files. They are modelled minimally, from how the extension methods and tests use them.
- Thread-safety of a built service: a concurrency claim, with no counterpart in a sequential model.
- "parse runs once": the model builds the state once and closes over it. It cannot count calls to `parse`.
- The internals of the Monday and Tuesday test sources are not part of this model. They are modelled by their verdicts.
