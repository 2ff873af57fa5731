/** The timestamp mode of JftToCollapseStacks.java: every event of a handled
    type is written at once, with its time, to one of five outputs, without
    aggregation, window or thread filter. */
module Timestamps {
  import opened Wrappers
  import opened Text
  import opened Recording
  import JfrParser
  import opened EventFilter
  import opened Aggregation
  import CollapsedStackWriter

  /** `writeStackTrace`: the event's time as `format` prints it, ';', the
      path, one space, the count and a newline. `format` stands for the output
      date format applied to the event's millisecond instant. */
  function StackLine(format: int -> string, ms: int, path: string, count: int): string {
    format(ms) + ";" + path + " " + IntToString(count) + "\n"
  }

  /** A timestamped line is a collapsed-stack line whose key is the time and
      the path: it ends with a newline, and cutting it at its last space gives
      back that key and the count. */
  lemma StackLineFormat(format: int -> string, ms: int, path: string, count: int)
    ensures StackLine(format, ms, path, count) == CollapsedStackWriter.Line(format(ms) + ";" + path, count)
    ensures var line := StackLine(format, ms, path, count);
      && line[|line| - 1] == '\n'
      && StartsWith(line, format(ms) + ";" + path + " ")
      && CollapsedStackWriter.SplitLine(line[..|line| - 1]) == Some((format(ms) + ";" + path, count))
  {
    var key := format(ms) + ";" + path;
    var line := StackLine(format, ms, path, count);
    assert line == (key + " ") + (IntToString(count) + "\n");
    assert line[..|line| - 1] == key + " " + IntToString(count);
    assert line[..|key + " "|] == key + " ";
    CollapsedStackWriter.SplitLineRoundTrip(key, count);
  }

  /** The five outputs of one recording. */
  datatype SinkId = WallSink | CpuSink | MonitorSink | AllocCountSink | AllocSizeSink

  datatype Sinks = Sinks(wall: string, cpu: string, monitor: string, allocCount: string, allocSize: string)

  function EmptySinks(): Sinks {
    Sinks("", "", "", "", "")
  }

  /** `text` written to one output; the others are untouched. */
  function Append(s: Sinks, sink: SinkId, text: string): Sinks {
    match sink
    case WallSink => s.(wall := s.wall + text)
    case CpuSink => s.(cpu := s.cpu + text)
    case MonitorSink => s.(monitor := s.monitor + text)
    case AllocCountSink => s.(allocCount := s.allocCount + text)
    case AllocSizeSink => s.(allocSize := s.allocSize + text)
  }

  lemma AppendTwice(s: Sinks, sink: SinkId, a: string, b: string)
    ensures Append(Append(s, sink, a), sink, b) == Append(s, sink, a + b)
  {
    match sink
    case WallSink => assert s.wall + a + b == s.wall + (a + b);
    case CpuSink => assert s.cpu + a + b == s.cpu + (a + b);
    case MonitorSink => assert s.monitor + a + b == s.monitor + (a + b);
    case AllocCountSink => assert s.allocCount + a + b == s.allocCount + (a + b);
    case AllocSizeSink => assert s.allocSize + a + b == s.allocSize + (a + b);
  }

  /** The outputs after some events, and the failure that stopped them. */
  datatype Stream = Stream(sinks: Sinks, failure: Option<Failure>)

  /** One event of `process*WithTimeStamps`: a wall sample writes its wall
      line, then reads its state, which fails without a state accessor, and
      writes a cpu line when running; a monitor enter writes a lock line; an
      allocation writes a count line with 1 and a size line with its size. */
  function StreamEvent(s: Sinks, k: Kind, e: Event, format: int -> string): Stream {
    var ms := Millis(e.startTimeNs);
    match k
    case Wall(hasState) =>
      var path := StackPath(e);
      var s1 := Append(s, WallSink, StackLine(format, ms, path, 1));
      if !hasState then Stream(s1, Some(StateAccessorNull))
      else if JfrParser.ConsumingCpu(e.state) then Stream(Append(s1, CpuSink, StackLine(format, ms, path, 1)), None)
      else Stream(s1, None)
    case Lock =>
      Stream(Append(s, MonitorSink, StackLine(format, ms, LockPath(e), 1)), None)
    case Alloc(outsideTlab) =>
      var path := AllocPath(e, outsideTlab);
      Stream(Append(Append(s, AllocCountSink, StackLine(format, ms, path, 1)), AllocSizeSink, StackLine(format, ms, path, e.size)), None)
  }

  /** The loop over the events of one array; a failure ends it. */
  function StreamEvents(s: Sinks, k: Kind, events: seq<Event>, format: int -> string): Stream
    decreases |events|
  {
    if events == [] then Stream(s, None)
    else
      var r := StreamEvent(s, k, events[0], format);
      if r.failure.Some? then r else StreamEvents(r.sinks, k, events[1..], format)
  }

  /** The loop over the arrays of one recording; a failure ends the file. */
  function StreamArrays(s: Sinks, arrays: seq<EventArray>, format: int -> string): Stream
    decreases |arrays|
  {
    if arrays == [] then Stream(s, None)
    else
      match KindOf(arrays[0])
      case None => StreamArrays(s, arrays[1..], format)
      case Some(k) =>
        var r := StreamEvents(s, k, arrays[0].events, format);
        if r.failure.Some? then r else StreamArrays(r.sinks, arrays[1..], format)
  }

  /** `writeCollapsedWithTimestamp`: the five outputs are created empty before
      the recording is loaded, so a recording that cannot be loaded leaves
      them empty. */
  function StreamFile(recording: Recording, format: int -> string): Stream {
    match recording
    case Unreadable => Stream(EmptySinks(), Some(RecordingUnreadable))
    case Loaded(arrays) => StreamArrays(EmptySinks(), arrays, format)
  }

  // ---------------------------------------------------------------------------
  // What is written, line by line
  // ---------------------------------------------------------------------------

  /** The wall lines of some samples, one per sample, in order. */
  function WallLines(events: seq<Event>, format: int -> string): string
    decreases |events|
  {
    if events == [] then ""
    else StackLine(format, Millis(events[0].startTimeNs), StackPath(events[0]), 1) + WallLines(events[1..], format)
  }

  /** The cpu lines: one per sample whose state is runnable, in order. */
  function CpuLines(events: seq<Event>, format: int -> string): string
    decreases |events|
  {
    if events == [] then ""
    else CpuLine(events[0], format) + CpuLines(events[1..], format)
  }

  /** The line a running sample adds to the cpu output. */
  function CpuLine(e: Event, format: int -> string): string {
    if e.state == Some(JfrParser.StateRunnable)
    then StackLine(format, Millis(e.startTimeNs), StackPath(e), 1) else ""
  }

  /** One sample of a type with a state: its wall line, and its cpu line when
      running. */
  lemma WallEventStep(s: Sinks, e: Event, format: int -> string)
    ensures StreamEvent(s, Wall(true), e, format)
      == Stream(s.(wall := s.wall + StackLine(format, Millis(e.startTimeNs), StackPath(e), 1),
                   cpu := s.cpu + CpuLine(e, format)), None)
  {
    JfrParser.ConsumingCpuIff(e.state);
    if e.state != Some(JfrParser.StateRunnable) {
      assert s.cpu + CpuLine(e, format) == s.cpu;
    }
  }

  /** Of the samples of a type with a state, every one gets a wall line and
      exactly the running ones a cpu line; no sample is left out, whatever its
      time or thread, and nothing else is written. */
  lemma {:induction false} WallStream(s: Sinks, events: seq<Event>, format: int -> string)
    ensures var r := StreamEvents(s, Wall(true), events, format);
      && r.failure == None
      && r.sinks.wall == s.wall + WallLines(events, format)
      && r.sinks.cpu == s.cpu + CpuLines(events, format)
      && r.sinks.monitor == s.monitor
      && r.sinks.allocCount == s.allocCount
      && r.sinks.allocSize == s.allocSize
    decreases |events|
  {
    if events == [] {
      AppendEmpty(s.wall);
      AppendEmpty(s.cpu);
    } else {
      var e := events[0];
      var line := StackLine(format, Millis(e.startTimeNs), StackPath(e), 1);
      var s1 := s.(wall := s.wall + line, cpu := s.cpu + CpuLine(e, format));
      WallEventStep(s, e, format);
      assert StreamEvents(s, Wall(true), events, format) == StreamEvents(s1, Wall(true), events[1..], format);
      WallStream(s1, events[1..], format);
      assert WallLines(events, format) == line + WallLines(events[1..], format);
      assert CpuLines(events, format) == CpuLine(e, format) + CpuLines(events[1..], format);
      AppendAssociative(s.wall, line, WallLines(events[1..], format));
      AppendAssociative(s.cpu, CpuLine(e, format), CpuLines(events[1..], format));
      assert s1.wall + WallLines(events[1..], format) == s.wall + WallLines(events, format);
      assert s1.cpu + CpuLines(events[1..], format) == s.cpu + CpuLines(events, format);
    }
  }

  /** Without a state accessor the first sample's wall line is written and
      then reading its state fails. */
  lemma WallWithoutState(s: Sinks, events: seq<Event>, format: int -> string)
    requires events != []
    ensures StreamEvents(s, Wall(false), events, format)
      == Stream(s.(wall := s.wall + StackLine(format, Millis(events[0].startTimeNs), StackPath(events[0]), 1)), Some(StateAccessorNull))
  {
  }

  /** The count and the size output of allocations. */
  function AllocLines(events: seq<Event>, outsideTlab: bool, format: int -> string, bySize: bool): string
    decreases |events|
  {
    if events == [] then ""
    else
      StackLine(format, Millis(events[0].startTimeNs), AllocPath(events[0], outsideTlab), if bySize then events[0].size else 1)
      + AllocLines(events[1..], outsideTlab, format, bySize)
  }

  lemma AllocEventStep(s: Sinks, e: Event, outsideTlab: bool, format: int -> string)
    ensures StreamEvent(s, Alloc(outsideTlab), e, format)
      == Stream(s.(allocCount := s.allocCount + StackLine(format, Millis(e.startTimeNs), AllocPath(e, outsideTlab), 1),
                   allocSize := s.allocSize + StackLine(format, Millis(e.startTimeNs), AllocPath(e, outsideTlab), e.size)), None)
  {
  }

  /** Every allocation gets one count line with 1 and one size line with its
      size, under the same path, and nothing else is written. */
  lemma {:induction false} AllocStream(s: Sinks, events: seq<Event>, outsideTlab: bool, format: int -> string)
    ensures var r := StreamEvents(s, Alloc(outsideTlab), events, format);
      && r.failure == None
      && r.sinks.allocCount == s.allocCount + AllocLines(events, outsideTlab, format, false)
      && r.sinks.allocSize == s.allocSize + AllocLines(events, outsideTlab, format, true)
      && r.sinks.wall == s.wall
      && r.sinks.cpu == s.cpu
      && r.sinks.monitor == s.monitor
    decreases |events|
  {
    if events == [] {
      AppendEmpty(s.allocCount);
      AppendEmpty(s.allocSize);
    } else {
      var e := events[0];
      var c := StackLine(format, Millis(e.startTimeNs), AllocPath(e, outsideTlab), 1);
      var z := StackLine(format, Millis(e.startTimeNs), AllocPath(e, outsideTlab), e.size);
      var s1 := s.(allocCount := s.allocCount + c, allocSize := s.allocSize + z);
      AllocEventStep(s, e, outsideTlab, format);
      assert StreamEvents(s, Alloc(outsideTlab), events, format) == StreamEvents(s1, Alloc(outsideTlab), events[1..], format);
      AllocStream(s1, events[1..], outsideTlab, format);
      assert AllocLines(events, outsideTlab, format, false) == c + AllocLines(events[1..], outsideTlab, format, false);
      assert AllocLines(events, outsideTlab, format, true) == z + AllocLines(events[1..], outsideTlab, format, true);
      AppendAssociative(s.allocCount, c, AllocLines(events[1..], outsideTlab, format, false));
      AppendAssociative(s.allocSize, z, AllocLines(events[1..], outsideTlab, format, true));
    }
  }

  /** The lock lines of some monitor enters, one per event, in order. */
  function LockLines(events: seq<Event>, format: int -> string): string
    decreases |events|
  {
    if events == [] then ""
    else StackLine(format, Millis(events[0].startTimeNs), LockPath(events[0]), 1) + LockLines(events[1..], format)
  }

  /** Every monitor enter gets one lock line with 1 under its marked path, in
      order and whatever its time or thread, and nothing else is written. */
  lemma {:induction false} LockStream(s: Sinks, events: seq<Event>, format: int -> string)
    ensures var r := StreamEvents(s, Lock, events, format);
      && r.failure == None
      && r.sinks.monitor == s.monitor + LockLines(events, format)
      && r.sinks.wall == s.wall
      && r.sinks.cpu == s.cpu
      && r.sinks.allocCount == s.allocCount
      && r.sinks.allocSize == s.allocSize
    decreases |events|
  {
    if events == [] {
      AppendEmpty(s.monitor);
    } else {
      var e := events[0];
      var line := StackLine(format, Millis(e.startTimeNs), LockPath(e), 1);
      var s1 := s.(monitor := s.monitor + line);
      assert StreamEvent(s, Lock, e, format) == Stream(s1, None);
      assert StreamEvents(s, Lock, events, format) == StreamEvents(s1, Lock, events[1..], format);
      LockStream(s1, events[1..], format);
      assert LockLines(events, format) == line + LockLines(events[1..], format);
      AppendAssociative(s.monitor, line, LockLines(events[1..], format));
    }
  }

  // ---------------------------------------------------------------------------
  // The writers, as the program drives them
  // ---------------------------------------------------------------------------

  /** The five writers of `writeCollapsedWithTimestamp`, each modelled by the
      text written to it so far. */
  class TimestampOutputs {
    var wall: string
    var cpu: string
    var monitor: string
    var allocCount: string
    var allocSize: string

    constructor()
      ensures Contents() == EmptySinks()
    {
      wall, cpu, monitor, allocCount, allocSize := "", "", "", "", "";
    }

    function Contents(): Sinks
      reads this
    {
      Sinks(wall, cpu, monitor, allocCount, allocSize)
    }

    /** `Writer.write` on one of the five writers. */
    method Write(sink: SinkId, text: string)
      modifies this
      ensures Contents() == Append(old(Contents()), sink, text)
    {
      match sink
      case WallSink => wall := wall + text;
      case CpuSink => cpu := cpu + text;
      case MonitorSink => monitor := monitor + text;
      case AllocCountSink => allocCount := allocCount + text;
      case AllocSizeSink => allocSize := allocSize + text;
    }

    /** `writeStackTrace` */
    method WriteStackTrace(sink: SinkId, eventDate: int, stacktrace: string, count: int, format: int -> string)
      modifies this
      ensures Contents() == Append(old(Contents()), sink, StackLine(format, eventDate, stacktrace, count))
    {
      ghost var before := Contents();
      Write(sink, format(eventDate));
      Write(sink, ";");
      AppendTwice(before, sink, format(eventDate), ";");
      Write(sink, stacktrace);
      AppendTwice(before, sink, format(eventDate) + ";", stacktrace);
      Write(sink, " " + IntToString(count) + "\n");
      AppendTwice(before, sink, format(eventDate) + ";" + stacktrace, " " + IntToString(count) + "\n");
      assert format(eventDate) + ";" + stacktrace + (" " + IntToString(count) + "\n")
        == StackLine(format, eventDate, stacktrace, count);
    }

    /** `processWallEventWithTimeStamps` */
    method ProcessWallEventWithTimeStamps(eventArray: EventArray, format: int -> string) returns (failure: Option<Failure>)
      modifies this
      ensures Stream(Contents(), failure) == StreamEvents(old(Contents()), Wall(eventArray.hasState), eventArray.events, format)
    {
      var events := eventArray.events;
      var i := 0;
      while i < |events|
        invariant 0 <= i <= |events|
        invariant StreamEvents(Contents(), Wall(eventArray.hasState), events[i..], format)
          == StreamEvents(old(Contents()), Wall(eventArray.hasState), events, format)
      {
        assert events[i..][1..] == events[i + 1..];
        var eventDate := Millis(events[i].startTimeNs);
        var stacktrace := FetchStackPath(events[i]);
        WriteStackTrace(WallSink, eventDate, stacktrace, 1, format);
        if !eventArray.hasState {
          return Some(StateAccessorNull);
        }
        var state := events[i].state;
        if JfrParser.ConsumingCpu(state) {
          WriteStackTrace(CpuSink, eventDate, stacktrace, 1, format);
        }
        i := i + 1;
      }
      return None;
    }

    /** `processLockEventWithTimeStamps` */
    method ProcessLockEventWithTimeStamps(eventArray: EventArray, format: int -> string)
      modifies this
      ensures Stream(Contents(), None) == StreamEvents(old(Contents()), Lock, eventArray.events, format)
    {
      var events := eventArray.events;
      var i := 0;
      while i < |events|
        invariant 0 <= i <= |events|
        invariant StreamEvents(Contents(), Lock, events[i..], format)
          == StreamEvents(old(Contents()), Lock, events, format)
      {
        assert events[i..][1..] == events[i + 1..];
        var eventDate := Millis(events[i].startTimeNs);
        var monitorClass := events[i].typeName;
        var stacktrace := FetchStackPath(events[i]);
        stacktrace := stacktrace + ";" + monitorClass + "_[i]";
        WriteStackTrace(MonitorSink, eventDate, stacktrace, 1, format);
        i := i + 1;
      }
    }

    /** `processAllocEventWithTimeStamps` */
    method ProcessAllocEventWithTimeStamps(eventArray: EventArray, outsideTlab: bool, format: int -> string)
      modifies this
      ensures Stream(Contents(), None) == StreamEvents(old(Contents()), Alloc(outsideTlab), eventArray.events, format)
    {
      var events := eventArray.events;
      var i := 0;
      while i < |events|
        invariant 0 <= i <= |events|
        invariant StreamEvents(Contents(), Alloc(outsideTlab), events[i..], format)
          == StreamEvents(old(Contents()), Alloc(outsideTlab), events, format)
      {
        assert events[i..][1..] == events[i + 1..];
        var eventDate := Millis(events[i].startTimeNs);
        var objectClass := events[i].typeName;
        var stacktrace := FetchStackPath(events[i]);
        stacktrace := stacktrace + ";" + objectClass + (if outsideTlab then "_[i]" else "_[k]");
        var size := events[i].size;
        WriteStackTrace(AllocCountSink, eventDate, stacktrace, 1, format);
        WriteStackTrace(AllocSizeSink, eventDate, stacktrace, size, format);
        i := i + 1;
      }
    }
  }

  /** `writeCollapsedWithTimestamp`: fresh outputs for one recording, then
      every array of a handled type through its loop; a failure is reported
      and ends the file, and what was written stays written. */
  method WriteCollapsedWithTimestamp(recording: Recording, format: int -> string) returns (sinks: Sinks, reported: Option<Failure>)
    ensures Stream(sinks, reported) == StreamFile(recording, format)
  {
    var outputs := new TimestampOutputs();
    if recording.Unreadable? {
      return outputs.Contents(), Some(RecordingUnreadable);
    }
    var arrays := recording.arrays;
    var j := 0;
    while j < |arrays|
      invariant 0 <= j <= |arrays|
      invariant StreamArrays(outputs.Contents(), arrays[j..], format) == StreamArrays(EmptySinks(), arrays, format)
    {
      assert arrays[j..][1..] == arrays[j + 1..];
      var eventArray := arrays[j];
      if JfrParser.IsAsyncWallEvent(eventArray.kind) {
        var failure := outputs.ProcessWallEventWithTimeStamps(eventArray, format);
        if failure.Some? {
          return outputs.Contents(), failure;
        }
      } else if JfrParser.IsLockEvent(eventArray.kind) {
        outputs.ProcessLockEventWithTimeStamps(eventArray, format);
      } else if JfrParser.IsAsyncAllocNewTLABEvent(eventArray.kind) {
        outputs.ProcessAllocEventWithTimeStamps(eventArray, false, format);
      } else if JfrParser.IsAsyncAllocOutsideTLABEvent(eventArray.kind) {
        outputs.ProcessAllocEventWithTimeStamps(eventArray, true, format);
      }
      j := j + 1;
    }
    return outputs.Contents(), None;
  }
}
