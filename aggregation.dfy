/** The aggregation mode of JftToCollapseStacks.java: five tables from stack
    path to counter, filled event by event from the recordings, then written
    out as collapsed-stack files. */
module Aggregation {
  import opened Wrappers
  import opened Text
  import opened Recording
  import JfrParser
  import opened EventFilter
  import CollapsedStackWriter

  // ---------------------------------------------------------------------------
  // Stack paths
  // ---------------------------------------------------------------------------

  /** The flattened stack of an event, with its thread's name in front. */
  function StackPath(e: Event): string {
    JfrParser.FlatStackTrace(JfrParser.ThreadName(e.thread), e.frames)
  }

  /** The path of a monitor-enter event: the stack, then the monitor class
      marked `_[i]`. */
  function LockPath(e: Event): string {
    StackPath(e) + ";" + e.typeName + "_[i]"
  }

  /** The path of an allocation: the stack, then the allocated class marked
      `_[i]` outside a TLAB and `_[k]` in a new TLAB. */
  function AllocPath(e: Event, outsideTlab: bool): string {
    StackPath(e) + ";" + e.typeName + (if outsideTlab then "_[i]" else "_[k]")
  }

  lemma ConcatEnds(a: string, b: string)
    ensures StartsWith(a + b, a) && EndsWith(a + b, b)
  {
    assert (a + b)[..|a|] == a;
    assert (a + b)[|a + b| - |b|..] == b;
  }

  lemma MarkedPath(stack: string, typeName: string, marker: string)
    ensures StartsWith(stack + ";" + typeName + marker, stack + ";")
    ensures EndsWith(stack + ";" + typeName + marker, ";" + typeName + marker)
  {
    ConcatEnds(stack + ";", typeName + marker);
    assert stack + ";" + typeName + marker == (stack + ";") + (typeName + marker);
    ConcatEnds(stack, ";" + typeName + marker);
    assert stack + ";" + typeName + marker == stack + (";" + typeName + marker);
  }

  /** Lock and allocation paths extend the event's stack path by one frame
      for the class; the marker tells TLAB from outside-TLAB allocations, and
      a lock shares its marker with an outside-TLAB allocation. */
  lemma SuffixRules(e: Event)
    ensures StartsWith(LockPath(e), StackPath(e) + ";")
    ensures EndsWith(LockPath(e), ";" + e.typeName + "_[i]")
    ensures EndsWith(AllocPath(e, true), ";" + e.typeName + "_[i]")
    ensures EndsWith(AllocPath(e, false), ";" + e.typeName + "_[k]")
    ensures AllocPath(e, true) == LockPath(e)
    ensures AllocPath(e, true) != AllocPath(e, false)
  {
    MarkedPath(StackPath(e), e.typeName, "_[i]");
    MarkedPath(StackPath(e), e.typeName, "_[k]");
    var p, q := AllocPath(e, true), AllocPath(e, false);
    assert p[|p| - 2] == 'i' && q[|q| - 2] == 'k';
  }

  // ---------------------------------------------------------------------------
  // The tables and one event's contribution
  // ---------------------------------------------------------------------------

  /** The five tables: wall-clock samples, samples of running threads,
      allocation counts, allocated bytes, and monitor contention. */
  datatype Tables = Tables(
    wall: map<string, int>,
    cpu: map<string, int>,
    allocCount: map<string, int>,
    allocSize: map<string, int>,
    monitor: map<string, int>)

  function EmptyTables(): Tables {
    Tables(map[], map[], map[], map[], map[])
  }

  /** `computeIfAbsent(key, new LongHolder())` followed by adding `amount`: the
      counter of `key`, created at zero, grows by `amount`; no other key
      changes. */
  function Bump(m: map<string, int>, key: string, amount: int): (r: map<string, int>)
    ensures r.Keys == m.Keys + {key}
    ensures r[key] == (if key in m then m[key] else 0) + amount
    ensures forall k :: k in m && k != key ==> r[k] == m[k]
  {
    m[key := (if key in m then m[key] else 0) + amount]
  }

  /** How the converter handles the events of an array. */
  datatype Kind = Wall(hasState: bool) | Lock | Alloc(outsideTlab: bool)

  /** The dispatch of `parseFile`: wall samples, then monitor enters, then
      allocations in a new TLAB, then outside a TLAB; other types are passed
      over. */
  function KindOf(a: EventArray): (r: Option<Kind>)
    ensures r.None? <==> !IsHandledKind(a.kind)
  {
    if JfrParser.IsAsyncWallEvent(a.kind) then Some(Wall(a.hasState))
    else if JfrParser.IsLockEvent(a.kind) then Some(Lock)
    else if JfrParser.IsAsyncAllocNewTLABEvent(a.kind) then Some(Alloc(false))
    else if JfrParser.IsAsyncAllocOutsideTLABEvent(a.kind) then Some(Alloc(true))
    else None
  }

  /** What one kept event adds: a wall sample counts once in the wall table
      and, when the type has a state and the state is runnable, once in the
      cpu table; a monitor enter counts once in the lock table; an allocation
      counts once in the count table and adds its size in the size table. */
  function Record(t: Tables, k: Kind, e: Event): Tables {
    match k
    case Wall(hasState) =>
      var path := StackPath(e);
      var t1 := t.(wall := Bump(t.wall, path, 1));
      if hasState && JfrParser.ConsumingCpu(e.state) then t1.(cpu := Bump(t1.cpu, path, 1)) else t1
    case Lock =>
      t.(monitor := Bump(t.monitor, LockPath(e), 1))
    case Alloc(outsideTlab) =>
      var path := AllocPath(e, outsideTlab);
      t.(allocCount := Bump(t.allocCount, path, 1), allocSize := Bump(t.allocSize, path, e.size))
  }

  /** A wall sample raises its path's wall count by exactly one, raises its cpu
      count by one exactly when a state accessor exists and the state is
      runnable, and touches nothing else. */
  lemma RecordWall(t: Tables, hasState: bool, e: Event)
    ensures var r, p := Record(t, Wall(hasState), e), StackPath(e);
      && r.wall == t.wall[p := (if p in t.wall then t.wall[p] else 0) + 1]
      && (if hasState && e.state == Some(JfrParser.StateRunnable)
          then r.cpu == t.cpu[p := (if p in t.cpu then t.cpu[p] else 0) + 1]
          else r.cpu == t.cpu)
      && r.allocCount == t.allocCount && r.allocSize == t.allocSize && r.monitor == t.monitor
  {
    JfrParser.ConsumingCpuIff(e.state);
  }

  /** A monitor enter and an allocation touch only their own tables, under
      the marked path. */
  lemma RecordLockAndAlloc(t: Tables, outsideTlab: bool, e: Event)
    ensures var r, p := Record(t, Lock, e), LockPath(e);
      && r.monitor.Keys == t.monitor.Keys + {p}
      && r.monitor[p] == (if p in t.monitor then t.monitor[p] else 0) + 1
      && (forall k :: k in t.monitor && k != p ==> r.monitor[k] == t.monitor[k])
      && r.wall == t.wall && r.cpu == t.cpu && r.allocCount == t.allocCount && r.allocSize == t.allocSize
    ensures var r, p := Record(t, Alloc(outsideTlab), e), AllocPath(e, outsideTlab);
      && r.allocCount.Keys == t.allocCount.Keys + {p} && r.allocSize.Keys == t.allocSize.Keys + {p}
      && r.allocCount[p] == (if p in t.allocCount then t.allocCount[p] else 0) + 1
      && r.allocSize[p] == (if p in t.allocSize then t.allocSize[p] else 0) + e.size
      && r.wall == t.wall && r.cpu == t.cpu && r.monitor == t.monitor
  {
  }

  // ---------------------------------------------------------------------------
  // Whole arrays, files and runs
  // ---------------------------------------------------------------------------

  /** Tables after some events, and the failure that stopped them, if any. */
  datatype Run = Run(tables: Tables, failure: Option<Failure>)

  /** The loop of `process{Wall,Lock,Alloc}Event`: skipped events change
      nothing, kept ones are recorded, and the first failing filter stops the
      loop with what was recorded before it. */
  function Events(t: Tables, k: Kind, events: seq<Event>, window: Option<Window>, thread: Option<string>): Run
    decreases |events|
  {
    if events == [] then Run(t, None)
    else
      match ShouldSkipByFilter(window, thread, events[0])
      case Err(f) => Run(t, Some(f))
      case Ok(skip) => Events(if skip then t else Record(t, k, events[0]), k, events[1..], window, thread)
  }

  /** The loop of `parseFile` over the event arrays of one recording; a failure
      ends the file. */
  function Arrays(t: Tables, arrays: seq<EventArray>, window: Option<Window>, thread: Option<string>): Run
    decreases |arrays|
  {
    if arrays == [] then Run(t, None)
    else
      match KindOf(arrays[0])
      case None => Arrays(t, arrays[1..], window, thread)
      case Some(k) =>
        var r := Events(t, k, arrays[0].events, window, thread);
        if r.failure.Some? then r else Arrays(r.tables, arrays[1..], window, thread)
  }

  /** `parseFile`: a recording that cannot be loaded adds nothing. */
  function FileSpec(t: Tables, recording: Recording, window: Option<Window>, thread: Option<string>): Run {
    match recording
    case Unreadable => Run(t, Some(RecordingUnreadable))
    case Loaded(arrays) => Arrays(t, arrays, window, thread)
  }

  /** The tables after every file in turn; a file's failure is reported and
      the next file is read into the same tables. */
  function AllFiles(t: Tables, recordings: seq<Recording>, window: Option<Window>, thread: Option<string>): Tables
    decreases |recordings|
  {
    if recordings == [] then t
    else AllFiles(FileSpec(t, recordings[0], window, thread).tables, recordings[1..], window, thread)
  }

  // ---------------------------------------------------------------------------
  // What the tables always satisfy
  // ---------------------------------------------------------------------------

  /** Every counter is at least one; every cpu path is a wall path counted no
      more often there; the two allocation tables have the same paths. */
  predicate Inv(t: Tables) {
    && (forall k :: k in t.wall ==> t.wall[k] >= 1)
    && (forall k :: k in t.cpu ==> k in t.wall && 1 <= t.cpu[k] <= t.wall[k])
    && (forall k :: k in t.monitor ==> t.monitor[k] >= 1)
    && (forall k :: k in t.allocCount ==> t.allocCount[k] >= 1)
    && t.allocCount.Keys == t.allocSize.Keys
  }

  lemma RecordKeepsInv(t: Tables, k: Kind, e: Event)
    requires Inv(t)
    ensures Inv(Record(t, k, e))
  {
    match k
    case Wall(hasState) =>
      WallSampleKeepsInv(t, StackPath(e), hasState && JfrParser.ConsumingCpu(e.state));
    case Lock =>
      BumpKeepsInv(t, LockPath(e));
    case Alloc(outsideTlab) =>
      AllocKeepsInv(t, AllocPath(e, outsideTlab), e.size);
  }

  /** A wall sample on `path`, counted in the cpu table too when `running`. */
  lemma WallSampleKeepsInv(t: Tables, path: string, running: bool)
    requires Inv(t)
    ensures var t1 := t.(wall := Bump(t.wall, path, 1));
      Inv(t1) && (running ==> Inv(t1.(cpu := Bump(t1.cpu, path, 1))))
  {
    var t1 := t.(wall := Bump(t.wall, path, 1));
    assert Inv(t1);
  }

  /** A monitor enter on `path`. */
  lemma BumpKeepsInv(t: Tables, path: string)
    requires Inv(t)
    ensures Inv(t.(monitor := Bump(t.monitor, path, 1)))
  {
  }

  /** An allocation on `path` of `size` bytes. */
  lemma AllocKeepsInv(t: Tables, path: string, size: int)
    requires Inv(t)
    ensures Inv(t.(allocCount := Bump(t.allocCount, path, 1), allocSize := Bump(t.allocSize, path, size)))
  {
  }

  lemma {:induction false} EventsKeepInv(t: Tables, k: Kind, events: seq<Event>, window: Option<Window>, thread: Option<string>)
    requires Inv(t)
    ensures Inv(Events(t, k, events, window, thread).tables)
    decreases |events|
  {
    if events != [] {
      match ShouldSkipByFilter(window, thread, events[0])
      case Err(_) =>
      case Ok(skip) =>
        var next := if skip then t else Record(t, k, events[0]);
        RecordKeepsInv(t, k, events[0]);
        EventsKeepInv(next, k, events[1..], window, thread);
    }
  }

  lemma {:induction false} ArraysKeepInv(t: Tables, arrays: seq<EventArray>, window: Option<Window>, thread: Option<string>)
    requires Inv(t)
    ensures Inv(Arrays(t, arrays, window, thread).tables)
    decreases |arrays|
  {
    if arrays != [] {
      match KindOf(arrays[0])
      case None => ArraysKeepInv(t, arrays[1..], window, thread);
      case Some(k) =>
        var r := Events(t, k, arrays[0].events, window, thread);
        EventsKeepInv(t, k, arrays[0].events, window, thread);
        if r.failure.None? {
          ArraysKeepInv(r.tables, arrays[1..], window, thread);
        }
    }
  }

  /** However the recordings look and whichever of them fail, the tables the
      converter writes satisfy the invariant. */
  lemma {:induction false} AllFilesKeepInv(t: Tables, recordings: seq<Recording>, window: Option<Window>, thread: Option<string>)
    requires Inv(t)
    ensures Inv(AllFiles(t, recordings, window, thread))
    decreases |recordings|
  {
    if recordings != [] {
      if recordings[0].Loaded? {
        ArraysKeepInv(t, recordings[0].arrays, window, thread);
      }
      AllFilesKeepInv(FileSpec(t, recordings[0], window, thread).tables, recordings[1..], window, thread);
    }
  }

  // ---------------------------------------------------------------------------
  // Totals
  // ---------------------------------------------------------------------------

  /** The sum of the counters of `keys`. */
  ghost function SumOver(m: map<string, int>, keys: set<string>): int
    requires keys <= m.Keys
    decreases keys
  {
    if keys == {} then 0
    else
      var k :| k in keys;
      m[k] + SumOver(m, keys - {k})
  }

  /** The sum of all counters of a table. */
  ghost function Total(m: map<string, int>): int {
    SumOver(m, m.Keys)
  }

  /** The sum does not depend on which key is taken first. */
  lemma {:induction false} SumOverRemove(m: map<string, int>, keys: set<string>, k: string)
    requires keys <= m.Keys && k in keys
    ensures SumOver(m, keys) == m[k] + SumOver(m, keys - {k})
    decreases keys
  {
    var j :| j in keys && SumOver(m, keys) == m[j] + SumOver(m, keys - {j});
    if j != k {
      SumOverRemove(m, keys - {j}, k);
      SumOverRemove(m, keys - {k}, j);
      assert keys - {j} - {k} == keys - {k} - {j};
    }
  }

  /** Tables that agree on `keys` have the same sum over them. */
  lemma {:induction false} SumOverAgree(a: map<string, int>, b: map<string, int>, keys: set<string>)
    requires keys <= a.Keys && keys <= b.Keys
    requires forall k :: k in keys ==> a[k] == b[k]
    ensures SumOver(a, keys) == SumOver(b, keys)
    decreases keys
  {
    if keys != {} {
      var k :| k in keys;
      SumOverRemove(a, keys, k);
      SumOverRemove(b, keys, k);
      SumOverAgree(a, b, keys - {k});
    }
  }

  /** Counters that are pointwise no larger have no larger sum, and an equal
      sum only when they are all equal. */
  lemma {:induction false} SumOverLess(a: map<string, int>, b: map<string, int>, keys: set<string>)
    requires keys <= a.Keys && keys <= b.Keys
    requires forall k :: k in keys ==> a[k] <= b[k]
    ensures SumOver(a, keys) <= SumOver(b, keys)
    ensures SumOver(a, keys) == SumOver(b, keys) ==> forall k :: k in keys ==> a[k] == b[k]
    decreases keys
  {
    if keys != {} {
      var k :| k in keys;
      SumOverRemove(a, keys, k);
      SumOverRemove(b, keys, k);
      SumOverLess(a, b, keys - {k});
    }
  }

  /** Adding to one counter adds the same amount to the total. */
  lemma BumpTotal(m: map<string, int>, key: string, amount: int)
    ensures Total(Bump(m, key, amount)) == Total(m) + amount
  {
    var b := Bump(m, key, amount);
    SumOverRemove(b, b.Keys, key);
    if key in m {
      assert b.Keys - {key} == m.Keys - {key};
      SumOverAgree(b, m, m.Keys - {key});
      SumOverRemove(m, m.Keys, key);
    } else {
      assert b.Keys - {key} == m.Keys;
      SumOverAgree(b, m, m.Keys);
    }
  }

  /** The events a run records: the kept ones, up to the first failure. */
  function Kept(events: seq<Event>, window: Option<Window>, thread: Option<string>): seq<Event>
    decreases |events|
  {
    if events == [] then []
    else
      match ShouldSkipByFilter(window, thread, events[0])
      case Err(_) => []
      case Ok(true) => Kept(events[1..], window, thread)
      case Ok(false) => [events[0]] + Kept(events[1..], window, thread)
  }

  /** Recording some events one after another. */
  function RecordAll(t: Tables, k: Kind, events: seq<Event>): Tables
    decreases |events|
  {
    if events == [] then t else RecordAll(Record(t, k, events[0]), k, events[1..])
  }

  /** Filtering and recording, as one loop does it, is recording the kept
      events. */
  lemma {:induction false} EventsRecordKept(t: Tables, k: Kind, events: seq<Event>, window: Option<Window>, thread: Option<string>)
    ensures Events(t, k, events, window, thread).tables == RecordAll(t, k, Kept(events, window, thread))
    decreases |events|
  {
    if events != [] {
      match ShouldSkipByFilter(window, thread, events[0])
      case Err(_) =>
      case Ok(skip) =>
        EventsRecordKept(if skip then t else Record(t, k, events[0]), k, events[1..], window, thread);
        if !skip {
          var kept := [events[0]] + Kept(events[1..], window, thread);
          assert kept[1..] == Kept(events[1..], window, thread);
        }
    }
  }

  /** The wall table counts every recorded wall sample exactly once. */
  lemma {:induction false} WallTotal(t: Tables, hasState: bool, events: seq<Event>)
    ensures Total(RecordAll(t, Wall(hasState), events).wall) == Total(t.wall) + |events|
    decreases |events|
  {
    if events != [] {
      BumpTotal(t.wall, StackPath(events[0]), 1);
      WallTotal(Record(t, Wall(hasState), events[0]), hasState, events[1..]);
    }
  }

  /** The allocation-size table grows by the sizes of the recorded
      allocations, the count table by their number. */
  lemma {:induction false} AllocTotals(t: Tables, outsideTlab: bool, events: seq<Event>)
    ensures Total(RecordAll(t, Alloc(outsideTlab), events).allocCount) == Total(t.allocCount) + |events|
    ensures Total(RecordAll(t, Alloc(outsideTlab), events).allocSize) == Total(t.allocSize) + SizeSum(events)
    decreases |events|
  {
    if events != [] {
      var path := AllocPath(events[0], outsideTlab);
      BumpTotal(t.allocCount, path, 1);
      BumpTotal(t.allocSize, path, events[0].size);
      AllocTotals(Record(t, Alloc(outsideTlab), events[0]), outsideTlab, events[1..]);
    }
  }

  function SizeSum(events: seq<Event>): int
    decreases |events|
  {
    if events == [] then 0 else events[0].size + SizeSum(events[1..])
  }

  // ---------------------------------------------------------------------------
  // Writing the tables out
  // ---------------------------------------------------------------------------

  /** A file `writeToFile` creates in the working directory. */
  datatype OutputFile = OutputFile(name: string, content: string)

  function Names(files: seq<OutputFile>): (r: seq<string>)
    ensures |r| == |files|
    ensures forall i :: 0 <= i < |files| ==> r[i] == files[i].name
  {
    seq(|files|, i requires 0 <= i < |files| => files[i].name)
  }

  /** The table each output file holds. */
  function TableNamed(t: Tables, name: string): map<string, int> {
    if name == "wall.collapsed" then t.wall
    else if name == "cpu.collapsed" then t.cpu
    else if name == "alloc.count.collapsed" then t.allocCount
    else if name == "alloc.size.collapsed" then t.allocSize
    else t.monitor
  }

  /** `content` is the collapsed-stack text of `table` in some iteration
      order of its entries. */
  ghost predicate Writes(content: string, table: map<string, int>) {
    exists order :: CollapsedStackWriter.IsEnumeration(order, table) && content == CollapsedStackWriter.Render(table, order)
  }

  /** The wall-file test of `writeToFile` as the program has it: when the two
      tables have as many paths, the total it calls the cpu total is summed
      over the wall table again, so it always equals the wall total. */
  ghost predicate WallOmittedAsWritten(t: Tables) {
    |t.wall| == |t.cpu| && Total(t.wall) == Total(t.wall)
  }

  /** The test the message "has same frames as CPU" describes: as many paths
      and the same total in both tables. */
  ghost predicate WallOmittedAsIntended(t: Tables) {
    |t.wall| == |t.cpu| && Total(t.cpu) == Total(t.wall)
  }

  /** The files `writeToFile` writes, in order: wall unless omitted, cpu
      always, then each allocation table and the lock table when not empty. */
  ghost function WrittenNames(t: Tables): seq<string> {
    (if WallOmittedAsWritten(t) then [] else ["wall.collapsed"]) + OtherNames(t)
  }

  /** The files after the wall file: cpu always, then each allocation table
      and the lock table when not empty. */
  function OtherNames(t: Tables): seq<string> {
    ["cpu.collapsed"]
    + (if |t.allocCount| > 0 then ["alloc.count.collapsed"] else [])
    + (if |t.allocSize| > 0 then ["alloc.size.collapsed"] else [])
    + (if |t.monitor| > 0 then ["lock.collapsed"] else [])
  }

  /** The files of the intended test. */
  ghost function IntendedNames(t: Tables): seq<string> {
    (if WallOmittedAsIntended(t) then [] else ["wall.collapsed"]) + OtherNames(t)
  }

  /** As written, the wall file is omitted exactly when the two tables have
      the same number of paths, whatever their counts. */
  lemma AsWrittenComparesSizesOnly(t: Tables)
    ensures WallOmittedAsWritten(t) <==> |t.wall| == |t.cpu|
  {
  }

  /** Two wall samples of one stack, the second of them running, with no
      window and no thread filter: the tables the loop builds satisfy the
      invariant and their wall and cpu tables differ, yet the test as written
      omits the wall file. */
  lemma AsWrittenOmitsDifferentWall()
    ensures var e := Event(0, None, [], None, "", 0);
      var r := Events(EmptyTables(), Wall(true), [e, e.(state := Some(JfrParser.StateRunnable))], None, None);
      && r.failure == None
      && Inv(r.tables)
      && WallOmittedAsWritten(r.tables)
      && r.tables.wall != r.tables.cpu
  {
    var e := Event(0, None, [], None, "", 0);
    var f := e.(state := Some(JfrParser.StateRunnable));
    var p := StackPath(e);
    assert StackPath(f) == p;
    JfrParser.ConsumingCpuIff(e.state);
    JfrParser.ConsumingCpuIff(f.state);
    var t1 := Record(EmptyTables(), Wall(true), e);
    var t2 := Record(t1, Wall(true), f);
    assert t1.wall == map[p := 1] && t1.cpu == map[];
    assert t2.wall == map[p := 2] && t2.cpu == map[p := 1];
    assert Events(t1, Wall(true), [f], None, None) == Run(t2, None) by {
      assert [f][1..] == [];
    }
    assert Events(EmptyTables(), Wall(true), [e, f], None, None) == Events(t1, Wall(true), [f], None, None) by {
      assert [e, f][1..] == [f];
    }
    RecordKeepsInv(EmptyTables(), Wall(true), e);
    RecordKeepsInv(t1, Wall(true), f);
    assert t2.wall[p] != t2.cpu[p];
  }

  /** On tables the converter can build, the intended test omits the wall file
      exactly when it would repeat the cpu file. */
  lemma IntendedOmitsOnlyDuplicates(t: Tables)
    requires Inv(t)
    ensures WallOmittedAsIntended(t) <==> t.wall == t.cpu
  {
    if WallOmittedAsIntended(t) {
      SubsetOfSameSize(t.cpu.Keys, t.wall.Keys);
      SumOverLess(t.cpu, t.wall, t.wall.Keys);
      assert t.wall == t.cpu;
    }
  }

  lemma {:induction false} SubsetOfSameSize(a: set<string>, b: set<string>)
    requires a <= b && |a| == |b|
    ensures a == b
    decreases a
  {
    if a != {} {
      var x :| x in a;
      SubsetOfSameSize(a - {x}, b - {x});
    }
  }

  /** `values().stream().map(getValue).reduce(0L, Long::sum)`: the total of a
      table's counters, in the map's iteration order. */
  method SumValues(m: map<string, int>) returns (s: int)
    ensures s == Total(m)
  {
    s := 0;
    var rest := m.Keys;
    while rest != {}
      invariant rest <= m.Keys
      invariant s + SumOver(m, rest) == Total(m)
      decreases |rest|
    {
      var key :| key in rest;
      SumOverRemove(m, rest, key);
      s := s + m[key];
      rest := rest - {key};
    }
  }

  /** The five static tables of the converter, filled in place. */
  class StackTables {
    var wall: map<string, int>
    var cpu: map<string, int>
    var allocCount: map<string, int>
    var allocSize: map<string, int>
    var monitor: map<string, int>

    constructor()
      ensures Snapshot() == EmptyTables()
    {
      wall, cpu, allocCount, allocSize, monitor := map[], map[], map[], map[], map[];
    }

    function Snapshot(): Tables
      reads this
    {
      Tables(wall, cpu, allocCount, allocSize, monitor)
    }

    /** `addToWallMap` */
    method AddToWallMap(stacktrace: string)
      modifies this
      ensures Snapshot() == old(Snapshot()).(wall := Bump(old(wall), stacktrace, 1))
    {
      var holder := if stacktrace in wall then wall[stacktrace] else 0;
      wall := wall[stacktrace := holder + 1];
    }

    /** `addToCpuMap` */
    method AddToCpuMap(stacktrace: string)
      modifies this
      ensures Snapshot() == old(Snapshot()).(cpu := Bump(old(cpu), stacktrace, 1))
    {
      var holder := if stacktrace in cpu then cpu[stacktrace] else 0;
      cpu := cpu[stacktrace := holder + 1];
    }

    /** `addToCpuMapIfConsumingCpu` */
    method AddToCpuMapIfConsumingCpu(state: Option<string>, stacktrace: string)
      modifies this
      ensures Snapshot() == if JfrParser.ConsumingCpu(state)
        then old(Snapshot()).(cpu := Bump(old(cpu), stacktrace, 1))
        else old(Snapshot())
    {
      if JfrParser.ConsumingCpu(state) {
        AddToCpuMap(stacktrace);
      }
    }

    /** `addToMonitorMap` */
    method AddToMonitorMap(stacktrace: string)
      modifies this
      ensures Snapshot() == old(Snapshot()).(monitor := Bump(old(monitor), stacktrace, 1))
    {
      var holder := if stacktrace in monitor then monitor[stacktrace] else 0;
      monitor := monitor[stacktrace := holder + 1];
    }

    /** `addToAllocMaps`: one more allocation and `size` more bytes at the
        same path. */
    method AddToAllocMaps(stacktrace: string, size: int)
      modifies this
      ensures Snapshot() == old(Snapshot()).(allocCount := Bump(old(allocCount), stacktrace, 1),
                                             allocSize := Bump(old(allocSize), stacktrace, size))
    {
      var count := if stacktrace in allocCount then allocCount[stacktrace] else 0;
      allocCount := allocCount[stacktrace := count + 1];
      var bytes := if stacktrace in allocSize then allocSize[stacktrace] else 0;
      allocSize := allocSize[stacktrace := bytes + size];
    }

    /** `processWallEvent`: the loop over the samples of a wall array; the cpu
        table is consulted only when the type has a state accessor. A failing
        filter ends the loop. */
    method ProcessWallEvent(window: Option<Window>, thread: Option<string>, eventArray: EventArray) returns (failure: Option<Failure>)
      modifies this
      ensures Run(Snapshot(), failure) == Events(old(Snapshot()), Wall(eventArray.hasState), eventArray.events, window, thread)
    {
      var events := eventArray.events;
      var i := 0;
      while i < |events|
        invariant 0 <= i <= |events|
        invariant Events(Snapshot(), Wall(eventArray.hasState), events[i..], window, thread)
          == Events(old(Snapshot()), Wall(eventArray.hasState), events, window, thread)
      {
        assert events[i..][1..] == events[i + 1..];
        var skip := ShouldSkipByFilter(window, thread, events[i]);
        if skip.Err? {
          return Some(skip.error);
        }
        if !skip.value {
          var stacktrace := FetchStackPath(events[i]);
          AddToWallMap(stacktrace);
          if eventArray.hasState {
            AddToCpuMapIfConsumingCpu(events[i].state, stacktrace);
          }
        }
        i := i + 1;
      }
      return None;
    }

    /** `processLockEvent` */
    method ProcessLockEvent(window: Option<Window>, thread: Option<string>, eventArray: EventArray) returns (failure: Option<Failure>)
      modifies this
      ensures Run(Snapshot(), failure) == Events(old(Snapshot()), Lock, eventArray.events, window, thread)
    {
      var events := eventArray.events;
      var i := 0;
      while i < |events|
        invariant 0 <= i <= |events|
        invariant Events(Snapshot(), Lock, events[i..], window, thread)
          == Events(old(Snapshot()), Lock, events, window, thread)
      {
        assert events[i..][1..] == events[i + 1..];
        var skip := ShouldSkipByFilter(window, thread, events[i]);
        if skip.Err? {
          return Some(skip.error);
        }
        if !skip.value {
          var monitorClass := events[i].typeName;
          var stacktrace := FetchStackPath(events[i]);
          stacktrace := stacktrace + ";" + monitorClass + "_[i]";
          AddToMonitorMap(stacktrace);
        }
        i := i + 1;
      }
      return None;
    }

    /** `processAllocEvent` */
    method ProcessAllocEvent(window: Option<Window>, thread: Option<string>, eventArray: EventArray, outsideTlab: bool) returns (failure: Option<Failure>)
      modifies this
      ensures Run(Snapshot(), failure) == Events(old(Snapshot()), Alloc(outsideTlab), eventArray.events, window, thread)
    {
      var events := eventArray.events;
      var i := 0;
      while i < |events|
        invariant 0 <= i <= |events|
        invariant Events(Snapshot(), Alloc(outsideTlab), events[i..], window, thread)
          == Events(old(Snapshot()), Alloc(outsideTlab), events, window, thread)
      {
        assert events[i..][1..] == events[i + 1..];
        var skip := ShouldSkipByFilter(window, thread, events[i]);
        if skip.Err? {
          return Some(skip.error);
        }
        if !skip.value {
          var objectClass := events[i].typeName;
          var stacktrace := FetchStackPath(events[i]);
          stacktrace := stacktrace + ";" + objectClass + (if outsideTlab then "_[i]" else "_[k]");
          var size := events[i].size;
          AddToAllocMaps(stacktrace, size);
        }
        i := i + 1;
      }
      return None;
    }

    /** `parseFile`: every array of a handled type goes to its loop; the first
        failure, or a recording that cannot be loaded, is reported and ends
        the file, keeping what was added before it. */
    method ParseFile(recording: Recording, window: Option<Window>, thread: Option<string>) returns (reported: Option<Failure>)
      modifies this
      ensures Run(Snapshot(), reported) == FileSpec(old(Snapshot()), recording, window, thread)
    {
      if recording.Unreadable? {
        return Some(RecordingUnreadable);
      }
      var arrays := recording.arrays;
      var j := 0;
      while j < |arrays|
        invariant 0 <= j <= |arrays|
        invariant Arrays(Snapshot(), arrays[j..], window, thread) == Arrays(old(Snapshot()), arrays, window, thread)
      {
        assert arrays[j..][1..] == arrays[j + 1..];
        var eventArray := arrays[j];
        var failure: Option<Failure> := None;
        if JfrParser.IsAsyncWallEvent(eventArray.kind) {
          failure := ProcessWallEvent(window, thread, eventArray);
        } else if JfrParser.IsLockEvent(eventArray.kind) {
          failure := ProcessLockEvent(window, thread, eventArray);
        } else if JfrParser.IsAsyncAllocNewTLABEvent(eventArray.kind) {
          failure := ProcessAllocEvent(window, thread, eventArray, false);
        } else if JfrParser.IsAsyncAllocOutsideTLABEvent(eventArray.kind) {
          failure := ProcessAllocEvent(window, thread, eventArray, true);
        }
        if failure.Some? {
          return failure;
        }
        j := j + 1;
      }
      return None;
    }

    /** `writeToFile`: the collapsed-stack files of the tables, the wall file
        left out by the test as the program has it. */
    method WriteToFile() returns (files: seq<OutputFile>)
      ensures Names(files) == WrittenNames(Snapshot())
      ensures WritesAll(files, Snapshot())
    {
      var wallDifferentThenCpu := true;
      if |wall| == |cpu| {
        var wallStackCount := SumValues(wall);
        var cpuStackCount := SumValues(wall);
        if cpuStackCount == wallStackCount {
          wallDifferentThenCpu := false;
        }
      }
      files := SaveTables(Snapshot(), wallDifferentThenCpu);
    }

    /** `writeToFile` with the cpu total summed over the cpu table, as the
        message "has same frames as CPU" intends: on tables the converter
        builds, the wall file is left out only when it would repeat the cpu
        file. */
    method WriteToFileAsIntended() returns (files: seq<OutputFile>)
      ensures Names(files) == IntendedNames(Snapshot())
      ensures WritesAll(files, Snapshot())
      ensures Inv(Snapshot()) ==> ("wall.collapsed" in Names(files) <==> wall != cpu)
    {
      var wallDifferentThenCpu := true;
      if |wall| == |cpu| {
        var wallStackCount := SumValues(wall);
        var cpuStackCount := SumValues(cpu);
        if cpuStackCount == wallStackCount {
          wallDifferentThenCpu := false;
        }
      }
      files := SaveTables(Snapshot(), wallDifferentThenCpu);
      if Inv(Snapshot()) {
        IntendedOmitsOnlyDuplicates(Snapshot());
        assert "wall.collapsed" !in OtherNames(Snapshot());
      }
    }
  }

  /** The saving part of `writeToFile`: the wall file when asked for, the cpu
      file, then each allocation file and the lock file when not empty. */
  method SaveTables(t: Tables, wallDifferentThenCpu: bool) returns (files: seq<OutputFile>)
    ensures Names(files) == (if wallDifferentThenCpu then ["wall.collapsed"] else []) + OtherNames(t)
    ensures WritesAll(files, t)
  {
    files := SaveWhen([], t, "wall.collapsed", wallDifferentThenCpu);
    files := SaveOthers(files, t);
  }

  /** The files after the wall file, after those already written. */
  method SaveOthers(files: seq<OutputFile>, t: Tables) returns (r: seq<OutputFile>)
    requires WritesAll(files, t)
    ensures Names(r) == Names(files) + OtherNames(t)
    ensures WritesAll(r, t)
  {
    r := SaveFileAs(files, t, "cpu.collapsed");
    r := SaveWhen(r, t, "alloc.count.collapsed", |t.allocCount| > 0);
    r := SaveWhen(r, t, "alloc.size.collapsed", |t.allocSize| > 0);
    r := SaveWhen(r, t, "lock.collapsed", |t.monitor| > 0);
    AppendRegroup(Names(files), ["cpu.collapsed"],
      if |t.allocCount| > 0 then ["alloc.count.collapsed"] else [],
      if |t.allocSize| > 0 then ["alloc.size.collapsed"] else [],
      if |t.monitor| > 0 then ["lock.collapsed"] else []);
  }

  /** Appending pieces one by one appends their concatenation. */
  lemma AppendRegroup(a: seq<string>, b: seq<string>, c: seq<string>, d: seq<string>, e: seq<string>)
    ensures a + b + c + d + e == a + (b + c + d + e)
  {
  }

  /** One file when `save` holds, none otherwise. */
  method SaveWhen(files: seq<OutputFile>, t: Tables, name: string, save: bool) returns (r: seq<OutputFile>)
    requires WritesAll(files, t)
    ensures Names(r) == Names(files) + (if save then [name] else [])
    ensures WritesAll(r, t)
  {
    r := files;
    if save {
      r := SaveFileAs(files, t, name);
    } else {
      assert Names(files) + [] == Names(files);
    }
  }

  /** Every file holds the collapsed-stack text of the table it is named for. */
  ghost predicate WritesAll(files: seq<OutputFile>, t: Tables) {
    forall i :: 0 <= i < |files| ==> Writes(files[i].content, TableNamed(t, files[i].name))
  }

  /** `CollapsedStackWriter.saveFile(saveDir, name, table)`: one more file,
      holding its table's text. */
  method SaveFileAs(files: seq<OutputFile>, t: Tables, name: string) returns (r: seq<OutputFile>)
    requires WritesAll(files, t)
    ensures Names(r) == Names(files) + [name]
    ensures WritesAll(r, t)
  {
    var table := TableNamed(t, name);
    var content, order := CollapsedStackWriter.SaveFile(table);
    assert Writes(content, table);
    r := files + [OutputFile(name, content)];
    assert Names(r) == Names(files) + [name];
  }

  /** `fetchFlatStackTrace` on an event of a handled array. */
  method FetchStackPath(e: Event) returns (path: string)
    ensures path == StackPath(e)
  {
    var r := JfrParser.FetchFlatStackTrace(JfrParser.FlrEvent("", e.thread, Some(e.frames), e.state));
    path := r.value;
  }
}
