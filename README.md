# collapse-jfr, modelled in Dafny

collapse-jfr reads Java Flight Recorder recordings and turns their samples into
"collapsed stack" text, one `<path> <count>` line per distinct stack, for
flame-graph tools. This project models its core in Dafny and proves what that
core promises:

- the command-line scanner and its settings record (`ArgumentsParser`, `Arguments`);
- how one sample's stack becomes a path: the thread name first, then the
  frames root first, each as `pkg/path/Class.method` (`JfrParser`);
- the time-window and thread filter, and the choice and computation of the
  window: from an access-log line, from warm-up and cool-down seconds, or
  none (`EventFilter`);
- the five aggregation tables (wall, cpu, lock, allocation count and size),
  their updates, the per-file loops, and what `writeToFile` writes
  (`Aggregation`);
- the serialisation of one table (`CollapsedStackWriter`);
- the timestamp mode, which writes every event with its time and without
  aggregation (`Timestamps`);
- `main`: the usage check, the list of files, the order of the steps, and the
  two modes (`JftToCollapseStacks`).

The shared state of the program, five static hash maps, is the class
`Aggregation.StackTables`. Its methods update the map fields in place and are
proved against pure specification functions (`Record`, `Events`, `FileSpec`,
`AllFiles`). Loops of the source are loops here, each with the invariant
"what remains to be done, applied to the current state, gives the whole
result". The recording library is abstracted: a recording (`Recording.Recording`) is a sequence of typed
event arrays, each event a value with its nanosecond start time, optional
thread, frames, optional state, type name and size.

Java's `null` is `Option.None`. The exceptions the model covers are
`Result.Err` / a returned `Failure` (the accessor and member nulls it assumes
away are listed under "Left out"): a null thread name, a null state
accessor, an unloadable recording, an empty warm-up scan, an unparsable date
or duration, a null path, or an unreadable flag. Whether the program goes on
after each of these follows the code. In the aggregating mode, a failure
inside one file ends that file, keeps what it had already counted, and the
next file is read. A failure while choosing the window ends the program. In
the timestamp mode, a failure ends that file's stream and keeps what was
already written.

## Model

| member | source | states |
|---|---|---|
| ArgumentsParser.Parse | src/main/java/pl/ks/profiling/jft/converter/collapsed/ArgumentsParser.java:4-28 | the index-driven loop, where operands advance the index inside the body, returns exactly the scan specification `Parsed(args)`, error cases included |
| ArgumentsParser.PathFlags | src/main/java/pl/ks/profiling/jft/converter/collapsed/ArgumentsParser.java:8-13 | `-d X` sets DIRECTORY and path X, `-f X` sets FILE and path X, after any well-formed prefix, and scanning goes on after X |
| ArgumentsParser.WarmUpFlag | src/main/java/pl/ks/profiling/jft/converter/collapsed/ArgumentsParser.java:14-15 | `-w N` sets warmUp to the integer value of N; a malformed N is a number-format error |
| ArgumentsParser.CoolDownFlag | src/main/java/pl/ks/profiling/jft/converter/collapsed/ArgumentsParser.java:16-17 | `-c N` sets coolDown likewise |
| ArgumentsParser.TimestampFlag | src/main/java/pl/ks/profiling/jft/converter/collapsed/ArgumentsParser.java:18-19 | `-ts` enables the timestamp mode and consumes no operand |
| ArgumentsParser.AccessLogFlag | src/main/java/pl/ks/profiling/jft/converter/collapsed/ArgumentsParser.java:20-22 | `-al A B` consumes two operands into the access-log date and the duration |
| ArgumentsParser.ThreadFlag | src/main/java/pl/ks/profiling/jft/converter/collapsed/ArgumentsParser.java:23-24 | `-t X` sets the thread filter to X |
| ArgumentsParser.LaterThreadWins | src/main/java/pl/ks/profiling/jft/converter/collapsed/ArgumentsParser.java:23-24 | a later `-t` overwrites the thread an earlier one set |
| ArgumentsParser.UnknownTokenIgnored | src/main/java/pl/ks/profiling/jft/converter/collapsed/ArgumentsParser.java:6-26 | a token that is not a flag changes nothing: the result is that of the arguments without it, with error indices shifted by one |
| ArgumentsParser.MissingOperand | src/main/java/pl/ks/profiling/jft/converter/collapsed/ArgumentsParser.java:8-24 | a flag that needs an operand but is last, or `-al` with one operand, is an out-of-bounds error at the array's length |
| ArgumentsParser.NoFlagsGiveDefaults | src/main/java/pl/ks/profiling/jft/converter/collapsed/Arguments.java:4-12 | tokens that are not flags give the default record: no path, no parser type, timestamps disabled, no access-log date or duration, no thread, warm-up and cool-down 0 |
| ArgumentsParser.ScanCompose | src/main/java/pl/ks/profiling/jft/converter/collapsed/ArgumentsParser.java:6-26 | scanning a concatenation is scanning the first part and continuing from its record |
| JfrParser.ValidEventCases | src/main/java/pl/ks/profiling/jft/converter/collapsed/JfrParser.java:26-28 | examples: the execution-sample type path and a longer path it prefixes are valid and a shorter path is not; and no event without a stack trace is valid, whatever its type |
| JfrParser.ConsumingCpuIff | src/main/java/pl/ks/profiling/jft/converter/collapsed/JfrParser.java:66-68 | an event consumes CPU iff its state is `STATE_RUNNABLE`; an absent state prints as "null" and does not |
| JfrParser.FrameTextRoundTrip | src/main/java/pl/ks/profiling/jft/converter/collapsed/JfrParser.java:48-60 | a frame prints as the package with '.' made '/' plus '/' when not empty, the class plus '.' when not empty, and the method name; for names without separators, cutting at the last '/' and the last '.' gives all three back |
| JfrParser.FrameTextHasNoSeparator | src/main/java/pl/ks/profiling/jft/converter/collapsed/JfrParser.java:48-60 | a frame's text holds no ';' |
| JfrParser.SplitPackagePiece | src/main/java/pl/ks/profiling/jft/converter/collapsed/JfrParser.java:48-52 | the package piece is cut off again at its '/' |
| JfrParser.SplitClassPiece | src/main/java/pl/ks/profiling/jft/converter/collapsed/JfrParser.java:54-60 | the class piece and method name are cut apart again at the last '.' |
| JfrParser.FetchFlatStackTrace | src/main/java/pl/ks/profiling/jft/converter/collapsed/JfrParser.java:30-64 | no stack trace is the null dereference (None); otherwise the `<thread>;` prefix when the thread and its name are present, then the frame texts in reverse order joined by ';' |
| JfrParser.AppendFrames | src/main/java/pl/ks/profiling/jft/converter/collapsed/JfrParser.java:40-61 | the loop from the last frame down to frame 0 appends exactly the reversed frame texts, one ';' between consecutive ones |
| JfrParser.AppendFrame | src/main/java/pl/ks/profiling/jft/converter/collapsed/JfrParser.java:48-60 | the appends for one frame add exactly its frame text |
| JfrParser.FramesRootFirst | src/main/java/pl/ks/profiling/jft/converter/collapsed/JfrParser.java:40-46 | without a thread, splitting the path at ';' gives the frame texts last frame first: exactly one ';' between frames, none before or after |
| JfrParser.ThreadPrefixFirst | src/main/java/pl/ks/profiling/jft/converter/collapsed/JfrParser.java:36-39 | with a thread name the first field is that name; with no frames the path is `name;` or empty |
| JfrParser.RootFirstExample | src/main/java/pl/ks/profiling/jft/converter/collapsed/JfrParser.java:36-61 | frames A, B, C of thread t give `t;C;B;A` |
| CollapsedStackWriter.SaveFile | src/main/java/pl/ks/profiling/jft/converter/collapsed/CollapsedStackWriter.java:25-35 | the entry loop writes, in some iteration order that visits every key once, the line of each entry and nothing else |
| CollapsedStackWriter.RenderSnoc | src/main/java/pl/ks/profiling/jft/converter/collapsed/CollapsedStackWriter.java:28-33 | one more entry adds exactly its line at the end |
| CollapsedStackWriter.SplitLineRoundTrip | src/main/java/pl/ks/profiling/jft/converter/collapsed/CollapsedStackWriter.java:29-31 | cutting `key value` at its last space gives the key and the value back, since the number has no space |
| CollapsedStackWriter.LineRoundTrip | src/main/java/pl/ks/profiling/jft/converter/collapsed/CollapsedStackWriter.java:29-32 | a line ends at its only newline when the key has none, and reads back as its key and value |
| CollapsedStackWriter.DecodeRender | src/main/java/pl/ks/profiling/jft/converter/collapsed/CollapsedStackWriter.java:28-33 | the written content is a sequence of complete newline-terminated lines that read back as the entries in writing order |
| CollapsedStackWriter.ToMapEntries | src/main/java/pl/ks/profiling/jft/converter/collapsed/CollapsedStackWriter.java:28-33 | the entries of an enumeration, collected, are the table |
| CollapsedStackWriter.SaveFileRoundTrip | src/main/java/pl/ks/profiling/jft/converter/collapsed/CollapsedStackWriter.java:28-33 | reading a written table gives one line per entry and the same table |
| CollapsedStackWriter.EmptyTable | src/main/java/pl/ks/profiling/jft/converter/collapsed/CollapsedStackWriter.java:28 | an empty table writes nothing |
| EventFilter.Millis | src/main/java/pl/ks/profiling/jft/converter/collapsed/JftToCollapseStacks.java:356-357 | nanoseconds become milliseconds by Java's division, truncating toward zero |
| EventFilter.WindowFilter | src/main/java/pl/ks/profiling/jft/converter/collapsed/JftToCollapseStacks.java:354-361 | with a window, an event is skipped iff its millisecond time is before the start or after the end; the window is tested before the thread is read |
| EventFilter.WindowEdgesKept | src/main/java/pl/ks/profiling/jft/converter/collapsed/JftToCollapseStacks.java:358 | both window ends are inclusive, down to the last nanosecond of the end millisecond |
| EventFilter.NormaliseThread | src/main/java/pl/ks/profiling/jft/converter/collapsed/JftToCollapseStacks.java:74 | the filter is trimmed and lower-cased once; it is absent iff no thread was given |
| EventFilter.ThreadFilter | src/main/java/pl/ks/profiling/jft/converter/collapsed/JftToCollapseStacks.java:363-368 | with a filter, an event is kept iff its lower-cased thread name equals the filter; no thread name is the null dereference |
| EventFilter.ThreadFilterIgnoresCase | src/main/java/pl/ks/profiling/jft/converter/collapsed/JftToCollapseStacks.java:74 | a thread whose name equals the given filter up to ASCII case and surrounding blanks is kept |
| EventFilter.ThreadFilterExample | src/main/java/pl/ks/profiling/jft/converter/collapsed/JftToCollapseStacks.java:363-368 | filter " Ab " keeps thread "AB" and skips thread "ac" |
| EventFilter.PolicyOf | src/main/java/pl/ks/profiling/jft/converter/collapsed/JftToCollapseStacks.java:93-100 | an access-log date selects that window; else a non-zero warm-up or cool-down selects the trim window; else there is none |
| EventFilter.DefaultsHaveNoWindow | src/main/java/pl/ks/profiling/jft/converter/collapsed/JftToCollapseStacks.java:93-100 | the default settings select no window |
| EventFilter.AccessLogWindow | src/main/java/pl/ks/profiling/jft/converter/collapsed/JftToCollapseStacks.java:130-136 | end = date + 1000 ms, start = end - 1000 ms - duration, so start = date - duration and end - start = duration + 1000; an unparsable date or duration fails |
| EventFilter.EarliestIsMinimum | src/main/java/pl/ks/profiling/jft/converter/collapsed/JftToCollapseStacks.java:117-119 | the running minimum is an element no larger than any other |
| EventFilter.LatestIsMaximum | src/main/java/pl/ks/profiling/jft/converter/collapsed/JftToCollapseStacks.java:114-116 | the running maximum is an element no smaller than any other |
| EventFilter.TrimWindowBounds | src/main/java/pl/ks/profiling/jft/converter/collapsed/JftToCollapseStacks.java:102-128 | the trim window exists iff every recording loads and some wall, lock or allocation event exists; then it is [earliest + warm-up s, latest - cool-down s] over all files |
| EventFilter.ScanEvents | src/main/java/pl/ks/profiling/jft/converter/collapsed/JftToCollapseStacks.java:111-121 | the loop over one array's events leaves the minimum and the maximum of their millisecond times |
| EventFilter.ScanArrays | src/main/java/pl/ks/profiling/jft/converter/collapsed/JftToCollapseStacks.java:106-121 | the loop over arrays reads the times of the four handled types only |
| EventFilter.CalculateDatesWithCoolDownAndWarmUp | src/main/java/pl/ks/profiling/jft/converter/collapsed/JftToCollapseStacks.java:102-128 | the loop over files computes the trim window, or the failure (an unloadable file, or no event: the null start date) |
| EventFilter.CalculateDates | src/main/java/pl/ks/profiling/jft/converter/collapsed/JftToCollapseStacks.java:93-100 | the window of the selected policy |
| EventFilter.TrimExample | src/main/java/pl/ks/profiling/jft/converter/collapsed/JftToCollapseStacks.java:102-128 | events at 0, 1, 2 and 3 s with warm-up and cool-down 1 give the window [1000, 2000] ms |
| Aggregation.SuffixRules | src/main/java/pl/ks/profiling/jft/converter/collapsed/JftToCollapseStacks.java:312-330 | lock and outside-TLAB paths end in `;<class>_[i]`, in-TLAB paths in `;<class>_[k]`, each after the stack path and ';' |
| Aggregation.Bump | src/main/java/pl/ks/profiling/jft/converter/collapsed/JftToCollapseStacks.java:378-393 | `computeIfAbsent(...).increment()/addValue(n)`: the key is added at 0 if absent and raised by n; other keys are unchanged |
| Aggregation.KindOf | src/main/java/pl/ks/profiling/jft/converter/collapsed/JftToCollapseStacks.java:283-292 | an array is handled iff it is of one of the four types |
| Aggregation.RecordWall | src/main/java/pl/ks/profiling/jft/converter/collapsed/JftToCollapseStacks.java:341-351 | a kept wall sample raises its path's wall count by exactly 1, and its cpu count by 1 exactly when there is a state accessor and the state is runnable; nothing else changes |
| Aggregation.RecordLockAndAlloc | src/main/java/pl/ks/profiling/jft/converter/collapsed/JftToCollapseStacks.java:386-393 | a lock adds 1 to the lock table; an allocation adds 1 to the count table and its size to the size table under the same path; nothing else changes |
| Aggregation.RecordKeepsInv | src/main/java/pl/ks/profiling/jft/converter/collapsed/JftToCollapseStacks.java:372-393 | every update keeps the table invariant: counts at least 1, cpu paths are wall paths counted at most as often, and the two allocation tables have the same paths |
| Aggregation.EventsKeepInv | src/main/java/pl/ks/profiling/jft/converter/collapsed/JftToCollapseStacks.java:299-352 | one array's loop keeps the invariant, failure or not |
| Aggregation.ArraysKeepInv | src/main/java/pl/ks/profiling/jft/converter/collapsed/JftToCollapseStacks.java:283-293 | one file's loop keeps it |
| Aggregation.AllFilesKeepInv | src/main/java/pl/ks/profiling/jft/converter/collapsed/JftToCollapseStacks.java:76-77 | reading all files keeps it |
| Aggregation.EventsRecordKept | src/main/java/pl/ks/profiling/jft/converter/collapsed/JftToCollapseStacks.java:341-351 | filtering and counting in one loop is counting the kept events, up to the first failure |
| Aggregation.WallTotal | src/main/java/pl/ks/profiling/jft/converter/collapsed/JftToCollapseStacks.java:341-347 | the wall table counts every recorded sample once |
| Aggregation.AllocTotals | src/main/java/pl/ks/profiling/jft/converter/collapsed/JftToCollapseStacks.java:306-315 | the count table grows by the number of allocations, the size table by the sum of their sizes |
| Aggregation.SumOverLess | src/main/java/pl/ks/profiling/jft/converter/collapsed/JftToCollapseStacks.java:143-148 | a table dominated pointwise sums to no more, and to as much only when equal on every key |
| Aggregation.AsWrittenComparesSizesOnly | src/main/java/pl/ks/profiling/jft/converter/collapsed/JftToCollapseStacks.java:141-152 | as written, the wall file is omitted iff the two tables have the same number of paths |
| Aggregation.AsWrittenOmitsDifferentWall | src/main/java/pl/ks/profiling/jft/converter/collapsed/JftToCollapseStacks.java:143-148 | two wall samples of one stack, the second runnable, run through the wall loop without window or filter: no failure, tables satisfying the invariant with wall {p: 2} and cpu {p: 1}, yet the wall file is omitted as written |
| Aggregation.IntendedOmitsOnlyDuplicates | src/main/java/pl/ks/profiling/jft/converter/collapsed/JftToCollapseStacks.java:141-157 | with the totals compared as intended, the wall file is omitted iff it equals the cpu file |
| Aggregation.SumValues | src/main/java/pl/ks/profiling/jft/converter/collapsed/JftToCollapseStacks.java:143-145 | the stream reduction sums a table's counters |
| Aggregation.StackTables.constructor | src/main/java/pl/ks/profiling/jft/converter/collapsed/JftToCollapseStacks.java:58-62 | the five tables start empty |
| Aggregation.StackTables.AddToWallMap | src/main/java/pl/ks/profiling/jft/converter/collapsed/JftToCollapseStacks.java:382-384 | the wall table gains one count for the path, nothing else changes |
| Aggregation.StackTables.AddToCpuMap | src/main/java/pl/ks/profiling/jft/converter/collapsed/JftToCollapseStacks.java:378-380 | the cpu table gains one count for the path |
| Aggregation.StackTables.AddToCpuMapIfConsumingCpu | src/main/java/pl/ks/profiling/jft/converter/collapsed/JftToCollapseStacks.java:372-376 | the cpu table gains one count exactly when the state is runnable |
| Aggregation.StackTables.AddToMonitorMap | src/main/java/pl/ks/profiling/jft/converter/collapsed/JftToCollapseStacks.java:386-388 | the lock table gains one count |
| Aggregation.StackTables.AddToAllocMaps | src/main/java/pl/ks/profiling/jft/converter/collapsed/JftToCollapseStacks.java:390-393 | the count table gains 1 and the size table the size, under the same path |
| Aggregation.StackTables.ProcessWallEvent | src/main/java/pl/ks/profiling/jft/converter/collapsed/JftToCollapseStacks.java:335-352 | the loop leaves the tables and failure of the specification `Events` for wall samples |
| Aggregation.StackTables.ProcessLockEvent | src/main/java/pl/ks/profiling/jft/converter/collapsed/JftToCollapseStacks.java:318-333 | likewise for monitor enters |
| Aggregation.StackTables.ProcessAllocEvent | src/main/java/pl/ks/profiling/jft/converter/collapsed/JftToCollapseStacks.java:299-316 | likewise for allocations, with the TLAB suffix |
| Aggregation.StackTables.ParseFile | src/main/java/pl/ks/profiling/jft/converter/collapsed/JftToCollapseStacks.java:276-297 | one file as `FileSpec`: an unloadable file changes nothing and is reported |
| Aggregation.StackTables.WriteToFile | src/main/java/pl/ks/profiling/jft/converter/collapsed/JftToCollapseStacks.java:138-169 | the files written, in order, are wall unless omitted, cpu always, then alloc count, alloc size and lock when not empty; each holds its table's collapsed text |
| Aggregation.StackTables.WriteToFileAsIntended | src/main/java/pl/ks/profiling/jft/converter/collapsed/JftToCollapseStacks.java:141-157 | the corrected write-out: the same files, but on tables the converter builds the wall file is left out iff the wall table equals the cpu table |
| Aggregation.SaveTables | src/main/java/pl/ks/profiling/jft/converter/collapsed/JftToCollapseStacks.java:153-167 | the file sequence for a given wall decision |
| Aggregation.FetchStackPath | src/main/java/pl/ks/profiling/jft/converter/collapsed/JfrParser.java:30-64 | the path of an event is its flattened stack |
| Timestamps.StackLineFormat | src/main/java/pl/ks/profiling/jft/converter/collapsed/JftToCollapseStacks.java:411-416 | a timestamped line is `<time>;<path> <count>\n`, a collapsed line whose key is the time and the path |
| Timestamps.WallStream | src/main/java/pl/ks/profiling/jft/converter/collapsed/JftToCollapseStacks.java:264-273 | with a state accessor every wall sample writes one wall line, and exactly the runnable ones a cpu line, in order; no window or thread filter applies |
| Timestamps.WallWithoutState | src/main/java/pl/ks/profiling/jft/converter/collapsed/JftToCollapseStacks.java:268-269 | without a state accessor the first sample's wall line is written, then reading its state fails |
| Timestamps.AllocStream | src/main/java/pl/ks/profiling/jft/converter/collapsed/JftToCollapseStacks.java:233-241 | every allocation writes a count line with 1 and a size line with its size, in order, unfiltered |
| Timestamps.LockStream | src/main/java/pl/ks/profiling/jft/converter/collapsed/JftToCollapseStacks.java:249-256 | every monitor enter writes one lock line with count 1 under its marked path, in order and unfiltered; no failure, and the other four outputs are unchanged |
| Timestamps.TimestampOutputs.constructor | src/main/java/pl/ks/profiling/jft/converter/collapsed/JftToCollapseStacks.java:200-205 | the five outputs start empty |
| Timestamps.TimestampOutputs.Write | src/main/java/pl/ks/profiling/jft/converter/collapsed/JftToCollapseStacks.java:412-415 | a write appends to one output only |
| Timestamps.TimestampOutputs.WriteStackTrace | src/main/java/pl/ks/profiling/jft/converter/collapsed/JftToCollapseStacks.java:407-416 | the four writes append exactly one timestamped line to one output |
| Timestamps.TimestampOutputs.ProcessWallEventWithTimeStamps | src/main/java/pl/ks/profiling/jft/converter/collapsed/JftToCollapseStacks.java:259-274 | the loop leaves the outputs and failure of the specification `StreamEvents` for wall samples |
| Timestamps.TimestampOutputs.ProcessLockEventWithTimeStamps | src/main/java/pl/ks/profiling/jft/converter/collapsed/JftToCollapseStacks.java:244-257 | likewise for monitor enters, one lock line each |
| Timestamps.TimestampOutputs.ProcessAllocEventWithTimeStamps | src/main/java/pl/ks/profiling/jft/converter/collapsed/JftToCollapseStacks.java:226-242 | likewise for allocations, a count and a size line each |
| Timestamps.WriteCollapsedWithTimestamp | src/main/java/pl/ks/profiling/jft/converter/collapsed/JftToCollapseStacks.java:194-224 | one file's outputs as `StreamFile`: fresh outputs, each handled array streamed, a failure ending the file |
| JftToCollapseStacks.FileName | src/main/java/pl/ks/profiling/jft/converter/collapsed/JftToCollapseStacks.java:88 | the last name of a path, with no '/' in it |
| JftToCollapseStacks.RecordingFiles | src/main/java/pl/ks/profiling/jft/converter/collapsed/JftToCollapseStacks.java:86-88 | a walked file is read iff its lower-cased name ends with `.jfr` or `.jfr.gz` |
| JftToCollapseStacks.GetPaths | src/main/java/pl/ks/profiling/jft/converter/collapsed/JftToCollapseStacks.java:84-91 | a directory gives its recording files, anything else the one path; no path is the null dereference |
| JftToCollapseStacks.UpperCaseExtensionRead | src/main/java/pl/ks/profiling/jft/converter/collapsed/JftToCollapseStacks.java:88 | `d/P.JFR` is read |
| JftToCollapseStacks.OnlyLastNameCounts | src/main/java/pl/ks/profiling/jft/converter/collapsed/JftToCollapseStacks.java:88 | `a.jfr/b` is not read |
| JftToCollapseStacks.Prepare | src/main/java/pl/ks/profiling/jft/converter/collapsed/JftToCollapseStacks.java:66-74 | fewer than two arguments, and only that, gives the usage stop; a run that goes on has a path, reads one recording per listed file, and has a lower-cased thread filter |
| JftToCollapseStacks.NoPathStops | src/main/java/pl/ks/profiling/jft/converter/collapsed/JftToCollapseStacks.java:72-73 | two tokens that are not flags stop the program on the null path |
| JftToCollapseStacks.SingleFileSetup | src/main/java/pl/ks/profiling/jft/converter/collapsed/JftToCollapseStacks.java:72-74 | `-f p` reads the one file p with no window and no thread filter |
| JftToCollapseStacks.Convert | src/main/java/pl/ks/profiling/jft/converter/collapsed/JftToCollapseStacks.java:66-82 | the whole run: a stop, or the collapsed files of the tables built from all recordings in turn, or one timestamp stream per recording |
| JftToCollapseStacks.Aggregate | src/main/java/pl/ks/profiling/jft/converter/collapsed/JftToCollapseStacks.java:76-78 | the aggregating mode writes the files of the tables built from every recording in turn, starting from empty tables |
| JftToCollapseStacks.StreamAll | src/main/java/pl/ks/profiling/jft/converter/collapsed/JftToCollapseStacks.java:79-81 | the timestamp mode yields one stream per recording, in order, each the stream of that recording alone |

## Findings

| source | as written | input that shows it | evidently intended | confidence | as-written member | corrected member |
|---|---|---|---|---|---|---|
| src/main/java/pl/ks/profiling/jft/converter/collapsed/JftToCollapseStacks.java:146-148 | the total called `cpuStackCount` is summed over `WALL_MAP`, so it always equals the wall total, and the wall file is omitted whenever the two tables have the same number of paths | two wall samples of one stack with path p, the second of them runnable: wall {p: 2}, cpu {p: 1}; the wall file is omitted though it differs from the cpu file | sum over `CPU_MAP`, so that the wall file is omitted only when it has the same frames and counts as the cpu file | not executed | Aggregation.AsWrittenOmitsDifferentWall | Aggregation.IntendedOmitsOnlyDuplicates |

`Aggregation.StackTables.WriteToFile`, which `Convert` calls, keeps the program's behaviour as written. `Aggregation.StackTables.WriteToFileAsIntended` is the corrected method.

## Left out

- Loading recordings (`getFlightRecording`, gzip input, the JMC accessors) is a foreign library. A recording is a `Recording` value, and `load` gives it for a path.
- Recording.Event: the start time, the stack trace, the package, class and method names of every frame, the monitor class, the object class and the allocation size are always present. Three NullPointerExceptions are not modelled: that of flattening a null stack trace or a null package name (JfrParser.java:33-34, 47); that of a missing accessor (`findMonitorClassAccessor`, `findObjectClassAccessor` or `findAllocSizeAccessor` returning null); and that of a null member (JftToCollapseStacks.java:236-238, 253, 311-313, 329). In the aggregating mode such an exception would end the file with the counts made so far, and only events that pass the filter reach these reads. The timestamp mode has no filter, and there it would end the stream.
- `Files.walk` and `Files.isRegularFile` are the `walk` parameter. `main` calls `getPaths` twice; the model assumes both walks list the same files.
- `SimpleDateFormat` is the `parseDate` parameter (the access-log date, in epoch milliseconds) and the `format` parameter (the output time format). Its locale, time-zone and calendar rules are not modelled.
- File output is the content of each output: `OutputFile` values for the collapsed files and `Sinks` for the timestamp streams. Directories, gzip and file names under the working directory are not modelled.
- Console messages, `printInfo`, `printStackTrace` and the exit status are not modelled; the usage case is the `Usage` stop.
- `HashMap` iteration order is not modelled. `SaveFile` and `SumValues` pick keys in an unspecified order, and their contracts hold for every order.
- Java's `long` and `int` are unbounded integers here; the accumulators and `Integer.valueOf` do not overflow.
- `toLowerCase`, `trim` and number parsing (`Integer.valueOf`, `Long.parseLong`) follow the ASCII rules only. Unicode case mapping and the non-ASCII decimal digits that `Character.digit` accepts are not modelled.
- `isAsyncWallEvent`, `isLockEvent`, the two allocation tests, `findStateAccessor`, `isConsumingCpu(String)` and the three-argument `fetchFlatStackTrace` are not part of this model's source files:
  - the four tests compare the array's type name with the JDK event names;
  - the state accessor's presence is the array's `hasState`;
  - the string `isConsumingCpu` uses the `consumingCpu` rule;
  - the flattening is that of `fetchFlatStackTrace` on the event's thread and frames.
- `CollapsedStackWriter.saveFile` is declared over `IntHolder` maps but called with `LongHolder` maps; both are unbounded counters here.
- In the timestamp mode, each recording re-creates the same five output files, so only the last recording's stream remains on disk. `Convert` returns every recording's stream in order.
- JftToCollapseStacks.Convert: it does not return the per-file failures that are only printed.
