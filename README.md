# Charger and station uptime, modelled in Dafny

`main.cpp` reads a log file with two sections. The `[Stations]` section has one
line per station. The first number on a line is the station id and every later
number is the id of one of its chargers. The `[Charger Availability Reports]`
section has one report per line: `<charger id> <start> <end> <true|false>`.
For each station the program prints its id and its uptime percentage. It prints
`ERROR` when a number does not parse.

The model covers the three classes that do this work:

- **`Charger`** (`chargers.dfy`) keeps an up time, a down time and the end of its
  latest report. `-1` means no report has arrived yet. A report first charges the
  gap since the previous report as down time, then charges its own length as up
  or down time.
  - The class `Chargers.Charger` has methods that update these fields in place.
  - Each method is proved against the value function `Chargers.AfterReport`.
  - The lemmas about repeated reports are stated over `Chargers.Replay`.
- **`Station`** (`stations.dfy`) keeps its chargers in declaration order.
  - A report goes to the first charger with a matching id. A report for an
    unknown id is dropped.
  - The station's percentage is the mean of its chargers' percentages. The model
    takes the signed mean, truncated toward zero. As written, main.cpp:119
    divides the `int` sum by a `size_t`. The two agree for every sum in
    [0, 2^31), but not for a negative sum (see Findings).
  - `vector<Charger>` holds its chargers by value, so the class `Stations.Station`
    holds a sequence of `ChargerState` values.
- **`LogFileProcesser`** (`log_processing.dfy`) reads the two sections.
  - Each section is given as the sequence of lines after its header.
  - `stoi` and `stol` are parameters of type `string -> Option<int>`. They return
    `None` where the library would throw.
  - The class `LogProcessing.LogFileProcessor` owns its `Station` objects.
  - Its methods are proved against the functions `StationSection`, `ReportSection`
    and `Uptimes`.
  - `ProcessFile` puts the two sections and the uptime report together.
    `None` stands for the `ERROR` output.

`unit_tests.dfy` replays the two scenarios of class `UnitTest` and proves that
both return `true`. `log_example.dfy` follows a small log file through the model
to its printed percentages, and also a file whose station line does not parse.

Apart from that one finding, the model follows the code. The program keeps no set of observed intervals and
merges nothing. Overlapping reports are counted twice. Any gap between a
charger's reports, and any report that runs backwards, is added to its times as
arithmetic, exactly as `addTime` does.

C++ integer semantics are written out in `cints.dfy`:

- signed `/` truncates toward zero;
- a conversion to `unsigned long` reduces modulo 2^64;
- a conversion to `int` keeps the low 32 bits, read as a signed value.

## Model

| member | source | states |
|---|---|---|
| Chargers.Charger.constructor | main.cpp:31-39 | a new charger has up time 0, down time 0, last known time -1 and the given id |
| Chargers.Charger.GetChargerId | main.cpp:59-61 | returns the id the charger was built with |
| Chargers.AfterReport | main.cpp:41-57 | last known time becomes `end`; an up report adds `end - start` to up time, and a down report leaves up time unchanged; the first report adds no gap; later reports add the gap `start - lastKnownTime` to down time; the total grows by `end` minus the previous reference point |
| Chargers.Charger.AddTime | main.cpp:41-57 | the step-by-step field updates leave the charger in exactly the state `AfterReport` describes |
| Chargers.Telescoping | main.cpp:41-57 | over any run of reports that keeps the charger initialised, the last known time is the last report's end and up plus down time grows by exactly the span from the old reference point to that end |
| Chargers.FreshTelescoping | main.cpp:31-57 | for a new charger, up time plus down time equals the last report's end minus the first report's start |
| Chargers.ChronologicalKeepsTimesNonNegative | main.cpp:41-57 | reports that never run backwards never make up time or down time negative |
| Chargers.Percent | main.cpp:63-68 | with no down time the percentage is 100; with no up time it is 0; with non-negative times it lies in [0, 100] |
| Chargers.ChronologicalPercentInRange | main.cpp:41-68 | a charger fed chronological reports has a percentage in [0, 100] |
| Chargers.Charger.GetPercentUptime | main.cpp:64-68 | returns `Percent` of the current fields; requires some recorded time, because 0/0 is undefined |
| CInts.TruncDiv | main.cpp:119 | C++ signed division: the remainder `a - q·b` is smaller than the divisor in magnitude and is zero or has the sign of `a`; for a non-negative numerator and a positive divisor it is the mathematical quotient |
| CInts.ToUnsigned64 | main.cpp:119 | the result lies in [0, 2^64) and is congruent to the input modulo 2^64 |
| CInts.ToInt32 | main.cpp:119 | the result lies in [-2^31, 2^31) and is congruent to the input modulo 2^32 |
| Stations.Station.constructor | main.cpp:86-88 | a new station has the given id and no chargers |
| Stations.Station.AddNewCharger | main.cpp:90-92 | appends a new charger and leaves every existing charger in place and unchanged |
| Stations.RoutedFirstMatch | main.cpp:95-105 | a report changes exactly the first charger with its id, as `AfterReport` says, and no other charger |
| Stations.RoutedUnknown | main.cpp:95-105 | a report for an id that no charger has leaves the chargers unchanged |
| Stations.RoutedKeepsIds | main.cpp:95-105 | routing a report keeps the number, the order and the ids of the chargers |
| Stations.Station.AddTimeToCharger | main.cpp:95-105 | the linear search updates the chargers exactly as `Routed` describes |
| Stations.Station.GetStationId | main.cpp:107-109 | returns the station's id |
| Stations.SumPercentsBounds | main.cpp:114-117 | when every charger's percentage lies in [lo, hi], the sum lies in [lo·n, hi·n] |
| Stations.MeanPercent | main.cpp:112-120 | chargers all at 100 give 100; all at 0 give 0; all in [0, 100] give a result in [0, 100]; for a sum in [0, 2^31) it equals the as-written `AsWrittenMean` of line 119 |
| Stations.StationPercentInRange | main.cpp:112-120 | a station whose chargers have non-negative times has a percentage in [0, 100] |
| Stations.Station.GetPercentUptime | main.cpp:112-120 | the summing loop returns `MeanPercent` of the chargers, which is the as-written value of line 119 whenever the sum lies in [0, 2^31); requires at least one charger, each with some recorded time |
| Stations.AsWrittenMeanAgrees | main.cpp:119 | for a sum in [0, 2^31) the unsigned division as written equals the signed mean |
| Stations.AsWrittenMeanOfNegativeSum | main.cpp:119 | three chargers whose percentages sum to -140: as written the mean is 1431655718, while the signed mean is -46 |
| LogProcessing.SplitTokens | main.cpp:157-161 | a line has no tokens exactly when it is empty, and no token contains a space |
| LogProcessing.SplitJoin | main.cpp:157-161 | joining the tokens with single spaces gives back the line, except for one trailing space |
| LogProcessing.Section | main.cpp:152-156 | a section is the prefix of the lines before the first empty line; it contains no empty line |
| LogProcessing.StationLineAddsChargers | main.cpp:170-179 | after the first token, each token of a line appends one new charger, in order, to the last station |
| LogProcessing.StationLineDeclares | main.cpp:159-180 | a line whose tokens all parse appends one station, with the first token's id and one charger per later token |
| LogProcessing.StationLineFails | main.cpp:161-168 | a line with a token that does not parse makes the section fail |
| LogProcessing.StationSectionMeaning | main.cpp:148-185 | the station section succeeds exactly when every token of every line parses; it then appends one station per line, in order |
| LogProcessing.ParseReport | main.cpp:208-213 | a report parses exactly when its id and both times parse and a fourth token exists; the charger is up exactly when the fourth token is `true`; it requires only the tokens the line reads before its first failing `stoi`/`stol` |
| LogProcessing.ApplyReport | main.cpp:215-217 | a report is offered to every station, and each station routes it to its own chargers |
| LogProcessing.ApplyReportKeepsShape | main.cpp:215-217 | a report changes no station id and no charger id, count or order |
| LogProcessing.ApplyReportUnknown | main.cpp:215-217 | a report for a charger id that no station has changes nothing |
| LogProcessing.ReportSectionMeaning | main.cpp:189-227 | the report section succeeds exactly when every report in it parses, and it never changes which stations and chargers exist; lines after the first failing report may hold anything |
| LogProcessing.Uptimes | main.cpp:250-253 | one row per station, in declaration order, holding the station id and its `MeanPercent` |
| LogProcessing.LogFileProcessor.constructor | main.cpp:131-135 | a new processor has no stations |
| LogProcessing.LogFileProcessor.AddStation | main.cpp:170-173 | `push_back(Station(id))` appends a station with no chargers and leaves the others unchanged |
| LogProcessing.LogFileProcessor.AddChargerToLastStation | main.cpp:174-179 | `stations.back().addNewCharger(id)` adds the charger to the last station only |
| LogProcessing.LogFileProcessor.ProcessStationLine | main.cpp:157-180 | the token loop of one line does what `StationLine` describes, including stopping at the first token that does not parse |
| LogProcessing.LogFileProcessor.ProcessStations | main.cpp:148-185 | the line loop returns success and builds the stations exactly as `StationSection` describes |
| LogProcessing.LogFileProcessor.OfferReport | main.cpp:215-217 | the loop over the stations leaves every station as `ApplyReport` describes |
| LogProcessing.LogFileProcessor.ProcessAvailabilityReports | main.cpp:189-227 | the report loop returns success and updates the stations exactly as `ReportSection` describes |
| LogProcessing.LogFileProcessor.UptimeReport | main.cpp:250-253 | the printed pairs are `Uptimes` of the stations |
| LogProcessing.FileOutcomeMeaning | main.cpp:240-247 | the file outcome is `ERROR` (`None`) exactly when a number in the station section or in a report does not parse; when the station section fails, the report lines may hold anything |
| LogProcessing.ProcessFile | main.cpp:231-256 | the result is `ERROR` (`None`) exactly when a number in either section does not parse; otherwise it is one pair per declared station |
| LogExample.ExampleFile | main.cpp:231-256 | stations `1 10 11` and `2 20`, with reports `10 0 100 true`, `11 0 50 false` and `20 0 10 true`, print station 1 at 50 and station 2 at 100 |
| LogExample.ExampleBadNumber | main.cpp:161-168 | a station line with the token `x` makes the whole file `ERROR`, whatever the reports |
| LogExample.FirstReportFails | main.cpp:208-220 | a first report whose id does not parse ends the report section with failure, whatever the later lines hold |
| LogExample.ExampleBadReport | main.cpp:208-220 | stations `1 10 11` and `2 20`, then the reports `x 0 1 true` and `1 2`: the file is `ERROR`, and the two-token line after the failing report is never indexed |
| UnitTests.Test1 | main.cpp:273-282 | `test1` returns true: a charger reported up for its whole span is at 100, and one reported down is at 0 |
| UnitTests.Test2 | main.cpp:285-311 | `test2` returns true: a station with two all-up chargers is at 100, and one with two all-down chargers is at 0 |

## Left out

- Opening and reading the file, `getToHeader` and the two header lines (main.cpp:134-144, 150, 191, 233-237). Each section is given as the lines that follow its header.
- `stoi` and `stol` (main.cpp:164, 210-212) are foreign library calls. They are parameters that return `None` where the library throws.
- Chargers.Percent: the `float` arithmetic of `getPercentUptime` is modelled as the exact ratio truncated toward zero. IEEE single-precision rounding of the quotient and of the product by 100 can make the C++ result differ by one from the exact truncation. The model does not capture this.
- Integer widths and overflow: ids, times, `long` arithmetic and the `int` sum of percentages are unbounded integers. The only width written out is the conversion at main.cpp:119.
- The undefined cases are preconditions rather than behaviour:
  - 0/0 for a charger with no recorded time;
  - division by zero for a station without chargers;
  - indexing past the end of a report line the loop reaches (`ReportSectionDefined`). A reached line needs each token it reads before its first failing `stoi` or `stol`. Lines after the first failing report, and the report lines of a file whose station section fails, may hold anything.
- Stations.Station.GetPercentUptime, LogProcessing.Uptimes, LogProcessing.LogFileProcessor.UptimeReport, LogProcessing.ProcessFile: these return the signed mean `MeanPercent`. For a negative sum of percentages, main.cpp:119 as written returns `AsWrittenMean` instead (see Findings). The contract of `MeanPercent` states that the two agree for every sum in [0, 2^31). A negative sum needs a charger with a negative up or down time, which only reports out of chronological order can give: a report that ends before it starts, or one that starts before the previous report ended (`ChronologicalKeepsTimesNonNegative`).
- `main`'s argument check and console output (main.cpp:314-337).
- `processFile`'s string building (main.cpp:250-255). `ProcessFile` returns the `(id, percentage)` pairs that would be printed.
- The four `Charger` objects that `test2` builds and never uses (main.cpp:290-293).
- The `currentLogLine` member (main.cpp:134). Each loop reads its lines from a sequence.
- The token loop of one station line, and the loop over the stations for one report, are separate methods (`ProcessStationLine` and `OfferReport`). They are not inlined into the section loops.

## Findings

| source | as written | input that shows it | evidently intended | confidence | as-written member | corrected member |
|---|---|---|---|---|---|---|
| main.cpp:119 | `sum / chargers.size()` divides an `int` by a `size_t`, so a negative sum is first converted to a huge unsigned value and the quotient is then cut back to `int` | three chargers whose percentages are -140, 0 and 0. The first gets a down report 0–10, then an up report 12–5 whose end precedes its start | the signed mean, truncated toward zero: -46 (as written it is 1431655718) | medium, not executed | Stations.AsWrittenMeanOfNegativeSum | Stations.MeanPercent |
