/** Event classification and stack flattening (JfrParser.java).

    A stack trace is recorded leaf first: index 0 is the innermost frame. The
    flattened path is written root first, each frame as
    `<package with slashes>/<Class>.<method>`, frames separated by exactly one
    ';', preceded by `<thread name>;` when the event has a named thread. */
module JfrParser {
  import opened Wrappers
  import opened Text

  /** The method of one stack frame (IMCMethod): its package in dotted form,
      the simple name of its declaring class, and its own name. */
  datatype Method = Method(packageName: string, className: string, methodName: string)

  /** A recorded thread (FLRThread), whose name may be null. */
  datatype FlrThread = FlrThread(name: Option<string>)

  /** An event of the recording API that JfrParser.java reads (IEvent): the
      path of its event type and its optional thread, stack trace and state. */
  datatype FlrEvent = FlrEvent(
    typePath: string,
    thread: Option<FlrThread>,
    stackTrace: Option<seq<Method>>,
    state: Option<string>)

  const ExecutionSamplePath := "vm/prof/execution_sample"
  const StateRunnable := "STATE_RUNNABLE"

  // ---------------------------------------------------------------------------
  // Event predicates
  // ---------------------------------------------------------------------------

  /** `validEvent`: an execution sample that carries a stack trace. */
  predicate ValidEvent(e: FlrEvent) {
    StartsWith(e.typePath, ExecutionSamplePath) && e.stackTrace.Some?
  }

  /** Java's `String.valueOf(Object)`: a null reference prints as "null". */
  function ValueOf(s: Option<string>): string {
    match s
    case Some(v) => v
    case None => "null"
  }

  /** `consumingCpu` / `isConsumingCpu`: the thread state, printed, is
      `STATE_RUNNABLE`. */
  predicate ConsumingCpu(state: Option<string>) {
    StateRunnable == ValueOf(state)
  }

  /** Only a present `STATE_RUNNABLE` state counts as consuming CPU; an absent
      state prints as "null" and does not. */
  lemma ConsumingCpuIff(state: Option<string>)
    ensures ConsumingCpu(state) <==> state == Some(StateRunnable)
    ensures !ConsumingCpu(None)
  {
  }

  /** The event kinds the converter handles, by the identifier of the event
      type in the recording. */
  predicate IsAsyncWallEvent(kind: string) { kind == "jdk.ExecutionSample" }
  predicate IsLockEvent(kind: string) { kind == "jdk.JavaMonitorEnter" }
  predicate IsAsyncAllocNewTLABEvent(kind: string) { kind == "jdk.ObjectAllocationInNewTLAB" }
  predicate IsAsyncAllocOutsideTLABEvent(kind: string) { kind == "jdk.ObjectAllocationOutsideTLAB" }

  // ---------------------------------------------------------------------------
  // Frames
  // ---------------------------------------------------------------------------

  /** The package piece of a frame text: slashes for dots, then '/', or
      nothing for the default package. */
  function PackagePiece(packageName: string): string {
    if |packageName| > 0 then Replace(packageName, '.', '/') + "/" else ""
  }

  /** The class piece of a frame text: the class and '.', or nothing. */
  function ClassPiece(className: string): string {
    if |className| > 0 then className + "." else ""
  }

  /** The text of one frame: the package piece, the class piece and always the
      method name last. */
  function FrameText(m: Method): string {
    PackagePiece(m.packageName) + ClassPiece(m.className) + m.methodName
  }

  /** Names as the JVM allows them: a dotted package has no '/', and a simple
      class name or a method name has neither '/' nor '.'; none has ';'. */
  predicate WellFormed(m: Method) {
    && '/' !in m.packageName && ';' !in m.packageName
    && '/' !in m.className && '.' !in m.className && ';' !in m.className
    && '/' !in m.methodName && '.' !in m.methodName && ';' !in m.methodName
  }

  /** Cuts a frame text after its last '/': the package in dotted form and
      the rest. */
  function SplitPackage(s: string): (string, string) {
    match LastIndexOf(s, '/')
    case None => ("", s)
    case Some(j) => (Replace(s[..j], '/', '.'), s[j + 1..])
  }

  /** Cuts the rest of a frame text at its last '.': class and method. */
  function SplitClass(rest: string): (string, string) {
    match LastIndexOf(rest, '.')
    case None => ("", rest)
    case Some(j) => (rest[..j], rest[j + 1..])
  }

  /** Reads a frame text back into package, class and method name. */
  function ParseFrameText(s: string): Method {
    var (pkg, rest) := SplitPackage(s);
    var (cls, name) := SplitClass(rest);
    Method(pkg, cls, name)
  }

  lemma SplitPackagePiece(packageName: string, rest: string)
    requires '/' !in packageName && '/' !in rest
    ensures SplitPackage(PackagePiece(packageName) + rest) == (packageName, rest)
  {
    if |packageName| > 0 {
      var r := Replace(packageName, '.', '/');
      LastIndexOfJoint(r, '/', rest);
      assert PackagePiece(packageName) + rest == r + ['/'] + rest;
      assert (r + ['/'] + rest)[..|r|] == r;
      assert (r + ['/'] + rest)[|r| + 1..] == rest;
      ReplaceBack(packageName, '.', '/');
    } else {
      assert PackagePiece(packageName) + rest == rest;
    }
  }

  lemma SplitClassPiece(className: string, methodName: string)
    requires '.' !in className && '.' !in methodName
    ensures SplitClass(ClassPiece(className) + methodName) == (className, methodName)
  {
    if |className| > 0 {
      LastIndexOfJoint(className, '.', methodName);
      assert ClassPiece(className) + methodName == className + ['.'] + methodName;
      assert (className + ['.'] + methodName)[..|className|] == className;
      assert (className + ['.'] + methodName)[|className| + 1..] == methodName;
    } else {
      assert ClassPiece(className) + methodName == methodName;
    }
  }

  /** The frame text loses nothing: package, class and method name can be read
      back from it, so no two well-formed frames print alike. */
  lemma FrameTextRoundTrip(m: Method)
    requires WellFormed(m)
    ensures ParseFrameText(FrameText(m)) == m
  {
    var rest := ClassPiece(m.className) + m.methodName;
    assert FrameText(m) == PackagePiece(m.packageName) + rest;
    assert '/' !in rest;
    SplitPackagePiece(m.packageName, rest);
    SplitClassPiece(m.className, m.methodName);
  }

  /** A well-formed frame's text holds no ';', the frame separator. */
  lemma FrameTextHasNoSeparator(m: Method)
    requires WellFormed(m)
    ensures ';' !in FrameText(m)
  {
    assert ';' !in Replace(m.packageName, '.', '/');
  }

  // ---------------------------------------------------------------------------
  // Flattening
  // ---------------------------------------------------------------------------

  /** The frame texts in recorded (leaf-first) order. */
  function Texts(frames: seq<Method>): (r: seq<string>)
    ensures |r| == |frames|
    ensures forall i :: 0 <= i < |frames| ==> r[i] == FrameText(frames[i])
  {
    seq(|frames|, i requires 0 <= i < |frames| => FrameText(frames[i]))
  }

  /** The thread's name when both the thread and its name are present. */
  function ThreadName(thread: Option<FlrThread>): Option<string> {
    if thread.Some? && thread.value.name.Some? then thread.value.name else None
  }

  /** `<name>;` for a named thread, nothing otherwise. */
  function ThreadPrefix(name: Option<string>): string {
    match name
    case Some(n) => n + ";"
    case None => ""
  }

  /** The collapsed-stack path of a stack: the thread prefix, then the frame
      texts root first, joined by ';'. */
  function FlatStackTrace(threadName: Option<string>, frames: seq<Method>): string {
    ThreadPrefix(threadName) + Join(Reversed(Texts(frames)), ';')
  }

  /** Joining one more part adds a separator and that part (a first part alone
      has no separator). */
  lemma JoinSnoc(done: seq<string>, x: string)
    ensures Join(done + [x], ';') == if done == [] then x else Join(done, ';') + ";" + x
  {
    assert (done + [x])[..|done|] == done;
  }

  /** `fetchFlatStackTrace`: appends the thread prefix, then walks the frames
      from the last index down to 0, appending ';' before every frame but the
      first one written, then the frame's package, class and method pieces.
      An event without a stack trace is dereferenced as null (None). */
  method FetchFlatStackTrace(event: FlrEvent) returns (r: Option<string>)
    ensures event.stackTrace.None? ==> r.None?
    ensures event.stackTrace.Some? ==>
      r == Some(FlatStackTrace(ThreadName(event.thread), event.stackTrace.value))
  {
    if event.stackTrace.None? { return None; }
    var frames := event.stackTrace.value;
    var builder := "";
    if event.thread.Some? && event.thread.value.name.Some? {
      builder := builder + event.thread.value.name.value + ";";
    }
    assert builder == ThreadPrefix(ThreadName(event.thread));
    builder := AppendFrames(builder, frames);
    return Some(builder);
  }

  /** Writing frame `i` after frames `i + 1 ..` extends their root-first texts
      by one. */
  lemma RevTextsStep(frames: seq<Method>, i: nat)
    requires i < |frames|
    ensures Reversed(Texts(frames[i..])) == Reversed(Texts(frames[i + 1..])) + [FrameText(frames[i])]
  {
    var a, b := Reversed(Texts(frames[i..])), Reversed(Texts(frames[i + 1..])) + [FrameText(frames[i])];
    assert |a| == |b|;
    forall j | 0 <= j < |a| ensures a[j] == b[j] {
      if j < |a| - 1 {
        assert a[j] == FrameText(frames[|frames| - 1 - j]);
      }
    }
  }

  /** Appending a separator (unless nothing was joined yet) and one more part
      to a prefix and a join gives the prefix and the longer join. */
  lemma AppendJoined(prefix: string, done: seq<string>, x: string, before: string, after: string)
    requires before == prefix + Join(done, ';')
    requires after == before + (if done != [] then ";" else "") + x
    ensures after == prefix + Join(done + [x], ';')
  {
    JoinSnoc(done, x);
  }

  /** One turn of the frame loop keeps the text equal to the prefix and the
      root-first join of the frames written so far. */
  lemma AppendFramesStep(prefix: string, frames: seq<Method>, i: nat, before: string, after: string)
    requires i < |frames|
    requires before == prefix + Join(Reversed(Texts(frames[i + 1..])), ';')
    requires after == before + (if i != |frames| - 1 then ";" else "") + FrameText(frames[i])
    ensures after == prefix + Join(Reversed(Texts(frames[i..])), ';')
  {
    var done := Reversed(Texts(frames[i + 1..]));
    assert done != [] <==> i != |frames| - 1;
    AppendJoined(prefix, done, FrameText(frames[i]), before, after);
    RevTextsStep(frames, i);
  }

  /** Before the frame loop nothing is joined; after it every frame is. */
  lemma AppendFramesBounds(prefix: string, frames: seq<Method>)
    ensures prefix + Join(Reversed(Texts(frames[|frames|..])), ';') == prefix
    ensures frames[0..] == frames
  {
    assert frames[|frames|..] == [];
    assert Reversed(Texts([])) == [];
    AppendEmpty(prefix);
  }

  /** The frame loop of `fetchFlatStackTrace`: from the last index down to 0,
      ';' before every frame but the first one written, then the frame. */
  method AppendFrames(prefix: string, frames: seq<Method>) returns (builder: string)
    ensures builder == prefix + Join(Reversed(Texts(frames)), ';')
  {
    AppendFramesBounds(prefix, frames);
    builder := prefix;
    var i := |frames| - 1;
    while i >= 0
      invariant -1 <= i < |frames|
      invariant builder == prefix + Join(Reversed(Texts(frames[i + 1..])), ';')
    {
      ghost var before := builder;
      var m := frames[i];
      if i != |frames| - 1 {
        builder := builder + ";";
      }
      builder := AppendFrame(builder, m);
      AppendFramesStep(prefix, frames, i, before, builder);
      i := i - 1;
    }
  }

  /** The body of the frame loop after the separator: the package with dots
      turned into slashes and a '/', when the package is not empty; the class
      and a '.', when the class is not empty; the method name. */
  method AppendFrame(builder: string, m: Method) returns (r: string)
    ensures r == builder + FrameText(m)
  {
    r := builder;
    var packageName := Replace(m.packageName, '.', '/');
    if |packageName| > 0 {
      r := r + packageName;
      r := r + "/";
    }
    assert r == builder + PackagePiece(m.packageName);
    var className := m.className;
    if |className| > 0 {
      r := r + className;
      r := r + ".";
    }
    assert r == builder + PackagePiece(m.packageName) + ClassPiece(m.className);
    r := r + m.methodName;
  }

  // ---------------------------------------------------------------------------
  // Properties of the flattened path
  // ---------------------------------------------------------------------------

  /** No frame text holds the separator, whatever the order. */
  lemma RootFirstPartsClean(frames: seq<Method>)
    requires forall i :: 0 <= i < |frames| ==> WellFormed(frames[i])
    ensures forall i :: 0 <= i < |frames| ==> ';' !in Reversed(Texts(frames))[i]
  {
    var parts := Reversed(Texts(frames));
    forall i | 0 <= i < |parts| ensures ';' !in parts[i] {
      FrameTextHasNoSeparator(frames[|frames| - 1 - i]);
    }
  }

  /** Without a named thread, cutting the path at ';' gives the frame texts in
      reverse recorded order, root first: one ';' between consecutive frames,
      none before the first and none after the last. */
  lemma FramesRootFirst(frames: seq<Method>)
    requires |frames| >= 1
    requires forall i :: 0 <= i < |frames| ==> WellFormed(frames[i])
    ensures Split(FlatStackTrace(None, frames), ';') == Reversed(Texts(frames))
  {
    var parts := Reversed(Texts(frames));
    RootFirstPartsClean(frames);
    assert FlatStackTrace(None, frames) == Join(parts, ';');
    SplitJoin(parts, ';');
  }

  /** With a named thread, the name is the first segment and the frames follow
      root first; with no frames the path is the prefix alone. */
  lemma ThreadPrefixFirst(name: string, frames: seq<Method>)
    requires ';' !in name
    requires forall i :: 0 <= i < |frames| ==> WellFormed(frames[i])
    ensures |frames| >= 1 ==> Split(FlatStackTrace(Some(name), frames), ';') == [name] + Reversed(Texts(frames))
    ensures FlatStackTrace(Some(name), []) == name + ";"
    ensures FlatStackTrace(None, []) == ""
  {
    if |frames| >= 1 {
      var parts := Reversed(Texts(frames));
      RootFirstPartsClean(frames);
      JoinCons(name, parts, ';');
      SplitJoin([name] + parts, ';');
    }
  }

  /** Three parts joined: each separated from the next by one ';'. */
  lemma JoinThree(a: string, b: string, c: string)
    ensures Join([a, b, c], ';') == a + ";" + b + ";" + c
  {
    assert [a, b, c][..2] == [a, b];
    assert [a, b][..1] == [a];
    assert Join([a, b], ';') == a + ";" + b;
    assert Join([a, b, c], ';') == (a + ";" + b) + ";" + c;
  }

  /** A stack recorded leaf first as [A, B, C] on thread "t" flattens to
      "t;C;B;A". */
  lemma RootFirstExample()
    ensures FlatStackTrace(Some("t"), [Method("", "", "A"), Method("", "", "B"), Method("", "", "C")]) == "t;C;B;A"
  {
    var frames := [Method("", "", "A"), Method("", "", "B"), Method("", "", "C")];
    BareFrameText("A");
    BareFrameText("B");
    BareFrameText("C");
    var texts := Texts(frames);
    assert texts == ["A", "B", "C"];
    var parts := Reversed(texts);
    assert parts == ["C", "B", "A"];
    JoinThree("C", "B", "A");
  }

  /** A frame without a package and a class is its method name alone. */
  lemma BareFrameText(name: string)
    ensures FrameText(Method("", "", name)) == name
  {
    assert PackagePiece("") == "" && ClassPiece("") == "";
  }

  /** `validEvent` accepts the execution-sample type path and any path it
      prefixes, rejects a shorter path, and rejects any event without a stack
      trace whatever its type. */
  lemma ValidEventCases(e: FlrEvent)
    ensures ValidEvent(FlrEvent(ExecutionSamplePath, None, Some([]), None))
    ensures ValidEvent(FlrEvent(ExecutionSamplePath + "/java", None, Some([]), None))
    ensures !ValidEvent(FlrEvent("vm/prof/execution", None, Some([]), None))
    ensures !ValidEvent(e.(stackTrace := None))
  {
    assert (ExecutionSamplePath + "/java")[..|ExecutionSamplePath|] == ExecutionSamplePath;
  }
}
