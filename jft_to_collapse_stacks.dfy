/** The command-line entry point of JftToCollapseStacks.java: it checks the
    argument count, scans the flags, lists the recordings, chooses the time
    window, and then either aggregates every recording into the collapsed
    tables or streams each recording with timestamps.

    The file system enters as parameters: `walk` lists the regular files
    under a directory, in the order the walk visits them, and `load` reads one
    recording. `parseDate` reads an access-log date and `format` prints an
    instant in the output date format. */
module JftToCollapseStacks {
  import opened Wrappers
  import opened Text
  import A = Arguments
  import ArgumentsParser
  import opened Recording
  import opened EventFilter
  import Aggregation
  import Timestamps

  // ---------------------------------------------------------------------------
  // Which files are read
  // ---------------------------------------------------------------------------

  /** `Path.getFileName`: the last '/'-separated name of a path. */
  function FileName(path: string): (r: string)
    ensures '/' !in r && EndsWith(path, r)
    ensures '/' !in path ==> r == path
  {
    match LastIndexOf(path, '/')
    case None => path
    case Some(j) => path[j + 1..]
  }

  /** The name after the last '/' is the file name. */
  lemma FileNameAfterSlash(dir: string, name: string)
    requires '/' !in name
    ensures FileName(dir + "/" + name) == name
  {
    var path := dir + "/" + name;
    LastIndexOfJoint(dir, '/', name);
    assert path == dir + ['/'] + name;
    assert path[|dir| + 1..] == name;
  }

  /** A file the directory mode reads: its name, lower-cased, ends with
      ".jfr" or ".jfr.gz". */
  predicate IsRecordingName(path: string) {
    var name := ToLower(FileName(path));
    EndsWith(name, ".jfr") || EndsWith(name, ".jfr.gz")
  }

  /** The files of a walk that have a recording's name, in walk order. */
  function RecordingFiles(files: seq<string>): (r: seq<string>)
    ensures |r| <= |files|
    ensures forall p :: p in r <==> p in files && IsRecordingName(p)
    decreases |files|
  {
    if files == [] then []
    else (if IsRecordingName(files[0]) then [files[0]] else []) + RecordingFiles(files[1..])
  }

  /** `getPaths`: every recording file under a directory, or the one path
      given; an unset path is the NullPointerException of `Paths.get(null)`. */
  function GetPaths(a: A.Arguments, walk: string -> seq<string>): (r: Result<seq<string>, Failure>)
    ensures r.Err? <==> a.path.None?
    ensures r.Err? ==> r.error == PathNull
    ensures r.Ok? && a.parserType != Some(A.Directory) ==> r.value == [a.path.value]
    ensures r.Ok? && a.parserType == Some(A.Directory) ==>
      forall p :: p in r.value <==> p in walk(a.path.value) && IsRecordingName(p)
  {
    if a.path.None? then Err(PathNull)
    else if a.parserType == Some(A.Directory) then Ok(RecordingFiles(walk(a.path.value)))
    else Ok([a.path.value])
  }

  /** Case does not matter: an upper-case extension is read. */
  lemma UpperCaseExtensionRead()
    ensures IsRecordingName("d/P.JFR")
  {
    FileNameAfterSlash("d", "P.JFR");
    assert "d" + "/" + "P.JFR" == "d/P.JFR";
    LowerExtension();
    assert "p.jfr"[1..] == ".jfr";
  }

  /** The lower-cased name of the example. */
  lemma LowerExtension()
    ensures ToLower("P.JFR") == "p.jfr"
  {
    var lower := ToLower("P.JFR");
    assert LowerChar('P') == 'p' && LowerChar('.') == '.' && LowerChar('J') == 'j';
    assert LowerChar('F') == 'f' && LowerChar('R') == 'r';
    assert lower[0] == 'p' && lower[1] == '.' && lower[2] == 'j' && lower[3] == 'f' && lower[4] == 'r';
  }

  /** Only the last name decides: a file inside a directory named like a
      recording is not read. */
  lemma OnlyLastNameCounts()
    ensures !IsRecordingName("a.jfr/b")
  {
    FileNameAfterSlash("a.jfr", "b");
    assert "a.jfr" + "/" + "b" == "a.jfr/b";
    assert |ToLower("b")| == 1;
  }

  // ---------------------------------------------------------------------------
  // What is decided before anything is written
  // ---------------------------------------------------------------------------

  /** Why the program stops before converting: too few arguments (the usage
      text and exit status -1), a flag the scanner cannot read, or an
      exception while listing the files or choosing the window. */
  datatype Stop = Usage | ArgumentsRejected(error: ArgumentsParser.ParseError) | Aborted(failure: Failure)

  /** What the conversion works with: the scanned flags, the recordings, the
      window and the lower-cased thread filter. */
  datatype Setup = Setup(arguments: A.Arguments, recordings: seq<Recording>, window: Option<Window>, thread: Option<string>)

  /** Every path read in turn. */
  function Load(paths: seq<string>, load: string -> Recording): (r: seq<Recording>)
    ensures |r| == |paths|
    ensures forall i :: 0 <= i < |paths| ==> r[i] == load(paths[i])
  {
    seq(|paths|, i requires 0 <= i < |paths| => load(paths[i]))
  }

  /** The steps of `main` up to the choice of mode, in the program's order. */
  function Prepare(args: seq<string>, walk: string -> seq<string>, load: string -> Recording,
                   parseDate: string -> Option<int>): (r: Result<Setup, Stop>)
    ensures r == Err(Usage) <==> |args| < 2
    ensures r.Ok? ==> ArgumentsParser.Parsed(args) == Ok(r.value.arguments)
    ensures r.Ok? ==> r.value.arguments.path.Some?
    ensures r.Ok? ==> |r.value.recordings| == |GetPaths(r.value.arguments, walk).value|
    ensures r.Ok? ==> r.value.thread.Some? ==> ToLower(r.value.thread.value) == r.value.thread.value
  {
    if |args| < 2 then Err(Usage)
    else
      match ArgumentsParser.Parsed(args)
      case Err(e) => Err(ArgumentsRejected(e))
      case Ok(a) =>
        match GetPaths(a, walk)
        case Err(f) => Err(Aborted(f))
        case Ok(paths) =>
          var recordings := Load(paths, load);
          match Dates(a, recordings, parseDate)
          case Err(f) => Err(Aborted(f))
          case Ok(window) => Ok(Setup(a, recordings, window, NormaliseThread(a.thread)))
  }

  /** Two tokens that are not flags leave the path unset: the program stops
      on the null path before it looks at any recording. */
  lemma NoPathStops(walk: string -> seq<string>, load: string -> Recording, parseDate: string -> Option<int>)
    ensures Prepare(["x", "y"], walk, load, parseDate) == Err(Aborted(PathNull))
  {
    assert ArgumentsParser.Scan(["x", "y"], 1, A.Default()) == Ok(A.Default());
    assert ArgumentsParser.Parsed(["x", "y"]) == Ok(A.Default());
  }

  /** `-f <file>` alone reads that one file, with no window and no thread
      filter. */
  lemma SingleFileSetup(path: string, walk: string -> seq<string>, load: string -> Recording,
                        parseDate: string -> Option<int>)
    ensures Prepare(["-f", path], walk, load, parseDate)
      == Ok(Setup(A.Default().(parserType := Some(A.File), path := Some(path)), [load(path)], None, None))
  {
    var a := A.Default().(parserType := Some(A.File), path := Some(path));
    assert ArgumentsParser.Scan(["-f", path], 2, a) == Ok(a);
    assert ArgumentsParser.Parsed(["-f", path]) == Ok(a);
    assert Load([path], load) == [load(path)];
  }

  // ---------------------------------------------------------------------------
  // The whole run
  // ---------------------------------------------------------------------------

  /** What a run leaves: it stopped early, or it wrote the collapsed files, or
      it streamed each recording in turn. Every streamed recording rewrites the
      same five output files, so the last stream is what stays on disk. */
  datatype Outcome =
    | Stopped(stop: Stop)
    | Collapsed(files: seq<Aggregation.OutputFile>)
    | Timestamped(streams: seq<Timestamps.Stream>)

  /** The streams of the timestamp mode, one per recording. */
  function Streams(recordings: seq<Recording>, format: int -> string): (r: seq<Timestamps.Stream>)
    ensures |r| == |recordings|
    ensures forall i :: 0 <= i < |recordings| ==> r[i] == Timestamps.StreamFile(recordings[i], format)
  {
    seq(|recordings|, i requires 0 <= i < |recordings| => Timestamps.StreamFile(recordings[i], format))
  }

  /** `main`. In the aggregating mode the collapsed files hold the tables
      built from every recording in turn, with the window and the thread
      filter applied; in the timestamp mode the window is computed, and can
      stop the run, but neither it nor the thread filter is applied. */
  method Convert(args: seq<string>, walk: string -> seq<string>, load: string -> Recording,
                 parseDate: string -> Option<int>, format: int -> string) returns (outcome: Outcome)
    ensures match Prepare(args, walk, load, parseDate)
      case Err(stop) => outcome == Stopped(stop)
      case Ok(s) =>
        if s.arguments.timestampFeature == A.Disabled then
          var tables := Aggregation.AllFiles(Aggregation.EmptyTables(), s.recordings, s.window, s.thread);
          && outcome.Collapsed?
          && Aggregation.Names(outcome.files) == Aggregation.WrittenNames(tables)
          && Aggregation.WritesAll(outcome.files, tables)
        else
          outcome == Timestamped(Streams(s.recordings, format))
  {
    if |args| < 2 {
      return Stopped(Usage);
    }
    var parsed := ArgumentsParser.Parse(args);
    if parsed.Err? {
      return Stopped(ArgumentsRejected(parsed.error));
    }
    var arguments := parsed.value;
    var paths := GetPaths(arguments, walk);
    if paths.Err? {
      return Stopped(Aborted(paths.error));
    }
    var recordings := Load(paths.value, load);
    var startEndDate := CalculateDates(arguments, recordings, parseDate);
    if startEndDate.Err? {
      return Stopped(Aborted(startEndDate.error));
    }
    var window := startEndDate.value;
    var threadLowerCase := NormaliseThread(arguments.thread);

    if arguments.timestampFeature == A.Disabled {
      var files := Aggregate(recordings, window, threadLowerCase);
      return Collapsed(files);
    } else {
      var streams := StreamAll(recordings, format);
      return Timestamped(streams);
    }
  }

  /** The aggregating mode: every recording parsed into the same tables, then
      the tables written. */
  method Aggregate(recordings: seq<Recording>, window: Option<Window>, thread: Option<string>)
    returns (files: seq<Aggregation.OutputFile>)
    ensures var tables := Aggregation.AllFiles(Aggregation.EmptyTables(), recordings, window, thread);
      Aggregation.Names(files) == Aggregation.WrittenNames(tables) && Aggregation.WritesAll(files, tables)
  {
    var tables := new Aggregation.StackTables();
    var i := 0;
    while i < |recordings|
      invariant 0 <= i <= |recordings|
      invariant Aggregation.AllFiles(tables.Snapshot(), recordings[i..], window, thread)
        == Aggregation.AllFiles(Aggregation.EmptyTables(), recordings, window, thread)
    {
      assert recordings[i..][1..] == recordings[i + 1..];
      var reported := tables.ParseFile(recordings[i], window, thread);
      i := i + 1;
    }
    files := tables.WriteToFile();
  }

  /** The timestamp mode: each recording streamed in turn. */
  method StreamAll(recordings: seq<Recording>, format: int -> string) returns (streams: seq<Timestamps.Stream>)
    ensures streams == Streams(recordings, format)
  {
    streams := [];
    var i := 0;
    while i < |recordings|
      invariant 0 <= i <= |recordings|
      invariant streams == Streams(recordings[..i], format)
    {
      var sinks, reported := Timestamps.WriteCollapsedWithTimestamp(recordings[i], format);
      streams := streams + [Timestamps.Stream(sinks, reported)];
      i := i + 1;
    }
    assert recordings[..i] == recordings;
  }
}
