/** The per-event filter of JftToCollapseStacks.java and the time window it
    uses: the millisecond clock of events, the inclusive window test, the
    thread-name test, and the three ways of choosing the window (from an
    access-log entry, from warm-up and cool-down around the recorded events,
    or none). */
module EventFilter {
  import opened Wrappers
  import opened Text
  import A = Arguments
  import opened Recording
  import JfrParser

  /** What makes the converter stop: a thrown exception, by its cause. */
  datatype Failure =
    | ThreadNameNull          // a thread filter meets an event without a thread name
    | StateAccessorNull       // a timestamped wall event of a type without a state
    | RecordingUnreadable     // a recording file that cannot be loaded
    | NoEventTimes            // warm-up/cool-down over recordings without events
    | DateUnparsable          // an access-log date the date format rejects
    | NumberFormat(text: Option<string>)   // a duration that is not a number
    | PathNull                // no -d or -f given
    | BadArguments            // the argument scanner failed

  // ---------------------------------------------------------------------------
  // The event clock and the per-event filter
  // ---------------------------------------------------------------------------

  /** `Instant.ofEpochMilli(startTimestamp / 1000000)`: nanoseconds to
      milliseconds by Java's long division, which truncates toward zero. */
  function Millis(ns: int): (r: int)
    ensures ns >= 0 ==> 0 <= r && r * 1000000 <= ns < (r + 1) * 1000000
    ensures ns < 0 ==> r <= 0 && (r - 1) * 1000000 < ns <= r * 1000000
  {
    if ns >= 0 then ns / 1000000 else -((-ns) / 1000000)
  }

  /** A `StartEndDate` with both ends set, in epoch milliseconds. */
  datatype Window = Window(start: int, end: int)

  /** The thread name an event's thread reports, when it has one. */
  function EventThreadName(e: Event): Option<string> {
    JfrParser.ThreadName(e.thread)
  }

  /** `shouldSkipByFilter`: with a window, an event whose millisecond time is
      before its start or after its end is skipped; then, with a thread filter,
      an event whose lower-cased thread name differs from the filter is
      skipped, and one without a thread name fails as Java's null dereference
      does. */
  function ShouldSkipByFilter(window: Option<Window>, thread: Option<string>, e: Event): Result<bool, Failure> {
    if window.Some? && (Millis(e.startTimeNs) < window.value.start || Millis(e.startTimeNs) > window.value.end) then
      Ok(true)
    else if thread.Some? then
      match EventThreadName(e)
      case None => Err(ThreadNameNull)
      case Some(name) => Ok(thread.value != ToLower(name))
    else
      Ok(false)
  }

  /** The window keeps exactly the events whose millisecond time lies between
      its ends, both ends included, and the window test comes before the thread
      is read: an event outside the window is skipped even without a thread. */
  lemma WindowFilter(w: Window, thread: Option<string>, e: Event)
    ensures Millis(e.startTimeNs) < w.start || Millis(e.startTimeNs) > w.end ==>
      ShouldSkipByFilter(Some(w), thread, e) == Ok(true)
    ensures w.start <= Millis(e.startTimeNs) <= w.end ==>
      ShouldSkipByFilter(Some(w), thread, e) == ShouldSkipByFilter(None, thread, e)
    ensures ShouldSkipByFilter(Some(w), None, e) == Ok(Millis(e.startTimeNs) < w.start || Millis(e.startTimeNs) > w.end)
  {
  }

  /** Events stamped at the first and at the last nanosecond of a window's
      edge milliseconds are kept. */
  lemma WindowEdgesKept(w: Window, e: Event)
    requires w.start >= 0 && w.start <= w.end
    ensures ShouldSkipByFilter(Some(w), None, e.(startTimeNs := w.start * 1000000)) == Ok(false)
    ensures ShouldSkipByFilter(Some(w), None, e.(startTimeNs := w.end * 1000000 + 999999)) == Ok(false)
  {
    assert Millis(w.start * 1000000) == w.start;
    assert Millis(w.end * 1000000 + 999999) == w.end;
  }

  /** The thread filter as `main` prepares it: trimmed and lower-cased once. */
  function NormaliseThread(thread: Option<string>): (r: Option<string>)
    ensures r.None? <==> thread.None?
    ensures r.Some? ==> ToLower(r.value) == r.value && |r.value| <= |thread.value|
  {
    match thread
    case None => None
    case Some(t) => ToLowerIdempotent(Trim(t)); Some(ToLower(Trim(t)))
  }

  /** With a thread filter and no window, an event is kept exactly when its
      lower-cased thread name equals the filter, and fails when it has no
      thread name. */
  lemma ThreadFilter(filter: string, e: Event)
    ensures ShouldSkipByFilter(None, Some(filter), e).Err? <==> EventThreadName(e).None?
    ensures ShouldSkipByFilter(None, Some(filter), e) == Ok(false) <==>
      EventThreadName(e).Some? && ToLower(EventThreadName(e).value) == filter
  {
  }

  /** A filter given as `given` keeps the events of a thread whose name
      differs from it only in ASCII case and in surrounding blanks. */
  lemma ThreadFilterIgnoresCase(given: string, e: Event)
    requires EventThreadName(e).Some?
    requires ToLower(EventThreadName(e).value) == ToLower(Trim(given))
    ensures ShouldSkipByFilter(None, NormaliseThread(Some(given)), e) == Ok(false)
  {
  }

  /** The configured filter " Ab " trims to "Ab". */
  lemma TrimExampleFilter()
    ensures Trim(" Ab ") == "Ab"
  {
    assert TrimStart(" Ab ") == "Ab ";
    assert TrimEnd("Ab ") == "Ab";
  }

  /** "Ab" and "AB" lower-case to "ab"; "ac" does not. */
  lemma LowerExampleNames()
    ensures ToLower("Ab") == "ab" && ToLower("AB") == "ab" && ToLower("ac") != "ab"
  {
    assert LowerChar('A') == 'a' && LowerChar('B') == 'b' && LowerChar('b') == 'b';
    var r, q := ToLower("Ab"), ToLower("AB");
    assert r[0] == 'a' && r[1] == 'b';
    assert q[0] == 'a' && q[1] == 'b';
    assert ToLower("ac")[1] == 'c';
  }

  /** A filter " Ab " keeps the events of thread "AB" and skips those of
      thread "ac". */
  lemma ThreadFilterExample(e: Event)
    ensures ShouldSkipByFilter(None, NormaliseThread(Some(" Ab ")),
      e.(thread := Some(JfrParser.FlrThread(Some("AB"))))) == Ok(false)
    ensures ShouldSkipByFilter(None, NormaliseThread(Some(" Ab ")),
      e.(thread := Some(JfrParser.FlrThread(Some("ac"))))) == Ok(true)
  {
    TrimExampleFilter();
    LowerExampleNames();
    assert NormaliseThread(Some(" Ab ")) == Some("ab");
    NamedThreadFilter("ab", e, "AB");
    NamedThreadFilter("ab", e, "ac");
  }

  /** An event of a named thread is skipped exactly when its lower-cased name
      differs from the filter. */
  lemma NamedThreadFilter(filter: string, e: Event, name: string)
    ensures ShouldSkipByFilter(None, Some(filter), e.(thread := Some(JfrParser.FlrThread(Some(name)))))
      == Ok(filter != ToLower(name))
  {
    assert EventThreadName(e.(thread := Some(JfrParser.FlrThread(Some(name))))) == Some(name);
  }

  // ---------------------------------------------------------------------------
  // Choosing the window
  // ---------------------------------------------------------------------------

  datatype Policy = AccessLog | WarmUpCoolDown | NoWindow

  /** `calculateDates`: an access-log date takes precedence; otherwise a
      non-zero warm-up or cool-down trims around the recorded events;
      otherwise there is no window. */
  function PolicyOf(a: A.Arguments): (p: Policy)
    ensures p == AccessLog <==> a.commonLogDateStr.Some?
    ensures p == WarmUpCoolDown <==> a.commonLogDateStr.None? && (a.warmUp != 0 || a.coolDown != 0)
    ensures p == NoWindow <==> a.commonLogDateStr.None? && a.warmUp == 0 && a.coolDown == 0
  {
    if a.commonLogDateStr.Some? then AccessLog
    else if a.coolDown != 0 || a.warmUp != 0 then WarmUpCoolDown
    else NoWindow
  }

  /** The settings before any flag is read select no window. */
  lemma DefaultsHaveNoWindow()
    ensures PolicyOf(A.Default()) == NoWindow
  {
  }

  /** `calculateDatesFromAccessLog`: the window ends one second after the
      parsed access-log date and starts one second and the duration before
      its end. `parseDate` is the access-log date format, in epoch
      milliseconds, None when it rejects the text; the duration is read as a
      long, and a missing duration is a number-format failure too. */
  function AccessLogWindow(a: A.Arguments, parseDate: string -> Option<int>): (r: Result<Window, Failure>)
    requires a.commonLogDateStr.Some?
    ensures parseDate(a.commonLogDateStr.value).None? ==> r == Err(DateUnparsable)
    ensures r.Ok? <==>
      parseDate(a.commonLogDateStr.value).Some? && a.durationTimeMsStr.Some? && ParseInt(a.durationTimeMsStr.value).Some?
    ensures r.Ok? ==>
      var logged, duration := parseDate(a.commonLogDateStr.value).value, ParseInt(a.durationTimeMsStr.value).value;
      && r.value.start == logged - duration
      && r.value.end == logged + 1000
      && r.value.end - r.value.start == duration + 1000
  {
    match parseDate(a.commonLogDateStr.value)
    case None => Err(DateUnparsable)
    case Some(logged) =>
      var end := logged + 1000;
      match a.durationTimeMsStr
      case None => Err(NumberFormat(None))
      case Some(text) =>
        match ParseInt(text)
        case None => Err(NumberFormat(Some(text)))
        case Some(timeMs) => Ok(Window(end - 1000 - timeMs, end))
  }

  /** The four event types whose times the warm-up/cool-down scan reads. */
  predicate IsHandledKind(kind: string) {
    || JfrParser.IsAsyncWallEvent(kind) || JfrParser.IsLockEvent(kind)
    || JfrParser.IsAsyncAllocNewTLABEvent(kind) || JfrParser.IsAsyncAllocOutsideTLABEvent(kind)
  }

  /** The millisecond times of some events, in order. */
  function EventTimes(events: seq<Event>): (r: seq<int>)
    ensures |r| == |events|
    ensures forall i :: 0 <= i < |events| ==> r[i] == Millis(events[i].startTimeNs)
  {
    seq(|events|, i requires 0 <= i < |events| => Millis(events[i].startTimeNs))
  }

  /** The times of the events of the handled types in some event arrays. */
  function ArrayTimes(arrays: seq<EventArray>): seq<int> {
    if arrays == [] then []
    else (if IsHandledKind(arrays[0].kind) then EventTimes(arrays[0].events) else []) + ArrayTimes(arrays[1..])
  }

  /** The times of the handled events of all recordings, file after file; the
      first recording that cannot be loaded stops the scan. */
  function RecordingTimes(recordings: seq<Recording>): Result<seq<int>, Failure> {
    if recordings == [] then Ok([])
    else if recordings[0].Unreadable? then Err(RecordingUnreadable)
    else Prepend(ArrayTimes(recordings[0].arrays), RecordingTimes(recordings[1..]))
  }

  function Prepend(times: seq<int>, r: Result<seq<int>, Failure>): Result<seq<int>, Failure> {
    match r
    case Ok(rest) => Ok(times + rest)
    case Err(f) => Err(f)
  }

  /** The earliest time seen, scanning `times` after `acc`: a time replaces
      the current one when there is none or the current one is after it. */
  function Earliest(acc: Option<int>, times: seq<int>): Option<int>
    decreases |times|
  {
    if times == [] then acc
    else Earliest(Some(if acc.None? || acc.value > times[0] then times[0] else acc.value), times[1..])
  }

  /** The latest time seen: a time replaces the current one when there is
      none or the current one is before it. */
  function Latest(acc: Option<int>, times: seq<int>): Option<int>
    decreases |times|
  {
    if times == [] then acc
    else Latest(Some(if acc.None? || acc.value < times[0] then times[0] else acc.value), times[1..])
  }

  lemma {:induction false} EarliestAppend(acc: Option<int>, xs: seq<int>, ys: seq<int>)
    ensures Earliest(acc, xs + ys) == Earliest(Earliest(acc, xs), ys)
    decreases |xs|
  {
    if xs != [] {
      assert (xs + ys)[1..] == xs[1..] + ys;
      EarliestAppend(Some(if acc.None? || acc.value > xs[0] then xs[0] else acc.value), xs[1..], ys);
    } else {
      assert xs + ys == ys;
    }
  }

  lemma {:induction false} LatestAppend(acc: Option<int>, xs: seq<int>, ys: seq<int>)
    ensures Latest(acc, xs + ys) == Latest(Latest(acc, xs), ys)
    decreases |xs|
  {
    if xs != [] {
      assert (xs + ys)[1..] == xs[1..] + ys;
      LatestAppend(Some(if acc.None? || acc.value < xs[0] then xs[0] else acc.value), xs[1..], ys);
    } else {
      assert xs + ys == ys;
    }
  }

  /** The scan finds the minimum: a value exactly when there was a start value
      or a time, no later than either, and one of them. */
  lemma {:induction false} EarliestIsMinimum(acc: Option<int>, times: seq<int>)
    ensures Earliest(acc, times).Some? <==> acc.Some? || times != []
    ensures Earliest(acc, times).Some? ==>
      && (acc.Some? ==> Earliest(acc, times).value <= acc.value)
      && (forall i :: 0 <= i < |times| ==> Earliest(acc, times).value <= times[i])
      && ((acc.Some? && Earliest(acc, times).value == acc.value) || Earliest(acc, times).value in times)
    decreases |times|
  {
    if times != [] {
      var next := Some(if acc.None? || acc.value > times[0] then times[0] else acc.value);
      EarliestIsMinimum(next, times[1..]);
      forall i | 1 <= i < |times| ensures times[i] == times[1..][i - 1] {}
    }
  }

  /** The scan finds the maximum. */
  lemma {:induction false} LatestIsMaximum(acc: Option<int>, times: seq<int>)
    ensures Latest(acc, times).Some? <==> acc.Some? || times != []
    ensures Latest(acc, times).Some? ==>
      && (acc.Some? ==> Latest(acc, times).value >= acc.value)
      && (forall i :: 0 <= i < |times| ==> Latest(acc, times).value >= times[i])
      && ((acc.Some? && Latest(acc, times).value == acc.value) || Latest(acc, times).value in times)
    decreases |times|
  {
    if times != [] {
      var next := Some(if acc.None? || acc.value < times[0] then times[0] else acc.value);
      LatestIsMaximum(next, times[1..]);
      forall i | 1 <= i < |times| ensures times[i] == times[1..][i - 1] {}
    }
  }

  /** The warm-up/cool-down window over the recordings: from the earliest
      handled event plus the warm-up seconds to the latest one minus the
      cool-down seconds; without any handled event the start date stays null
      and the computation fails. */
  function TrimWindow(a: A.Arguments, recordings: seq<Recording>): Result<Window, Failure> {
    match RecordingTimes(recordings)
    case Err(f) => Err(f)
    case Ok(times) =>
      var first, last := Earliest(None, times), Latest(None, times);
      if first.None? || last.None? then Err(NoEventTimes)
      else Ok(Window(first.value + a.warmUp * 1000, last.value - a.coolDown * 1000))
  }

  /** The trim window is the span of the recorded times shifted inward by
      whole seconds; it exists exactly when every recording loads and some
      handled event was recorded. */
  lemma TrimWindowBounds(a: A.Arguments, recordings: seq<Recording>)
    ensures TrimWindow(a, recordings).Ok? <==>
      RecordingTimes(recordings).Ok? && RecordingTimes(recordings).value != []
    ensures TrimWindow(a, recordings).Ok? ==>
      var times, w := RecordingTimes(recordings).value, TrimWindow(a, recordings).value;
      && w.start - a.warmUp * 1000 in times && w.end + a.coolDown * 1000 in times
      && (forall i :: 0 <= i < |times| ==> w.start - a.warmUp * 1000 <= times[i] <= w.end + a.coolDown * 1000)
  {
    if RecordingTimes(recordings).Ok? {
      EarliestIsMinimum(None, RecordingTimes(recordings).value);
      LatestIsMaximum(None, RecordingTimes(recordings).value);
    }
  }

  /** `calculateDates`: the window of the selected policy, None for no window. */
  function Dates(a: A.Arguments, recordings: seq<Recording>, parseDate: string -> Option<int>): Result<Option<Window>, Failure> {
    match PolicyOf(a)
    case AccessLog =>
      (match AccessLogWindow(a, parseDate)
       case Ok(w) => Ok(Some(w))
       case Err(f) => Err(f))
    case WarmUpCoolDown =>
      (match TrimWindow(a, recordings)
       case Ok(w) => Ok(Some(w))
       case Err(f) => Err(f))
    case NoWindow => Ok(None)
  }

  // ---------------------------------------------------------------------------
  // The warm-up/cool-down scan and the window choice, as the program runs them
  // ---------------------------------------------------------------------------

  /** The inner loop of `calculateDatesWithCoolDownAndWarmUp`: every event
      moves the end date later and the start date earlier when it is outside
      them. */
  method ScanEvents(start: Option<int>, end: Option<int>, events: seq<Event>) returns (first: Option<int>, last: Option<int>)
    ensures first == Earliest(start, EventTimes(events))
    ensures last == Latest(end, EventTimes(events))
  {
    first, last := start, end;
    ghost var times := EventTimes(events);
    var k := 0;
    while k < |events|
      invariant 0 <= k <= |events|
      invariant Earliest(first, times[k..]) == Earliest(start, times)
      invariant Latest(last, times[k..]) == Latest(end, times)
    {
      var eventDate := Millis(events[k].startTimeNs);
      if last.None? || last.value < eventDate {
        last := Some(eventDate);
      }
      if first.None? || first.value > eventDate {
        first := Some(eventDate);
      }
      assert times[k..][1..] == times[k + 1..];
      k := k + 1;
    }
  }

  /** The loop over the event arrays of one recording: arrays of other types
      are passed over. */
  method ScanArrays(start: Option<int>, end: Option<int>, arrays: seq<EventArray>) returns (first: Option<int>, last: Option<int>)
    ensures first == Earliest(start, ArrayTimes(arrays))
    ensures last == Latest(end, ArrayTimes(arrays))
  {
    first, last := start, end;
    var j := 0;
    while j < |arrays|
      invariant 0 <= j <= |arrays|
      invariant Earliest(first, ArrayTimes(arrays[j..])) == Earliest(start, ArrayTimes(arrays))
      invariant Latest(last, ArrayTimes(arrays[j..])) == Latest(end, ArrayTimes(arrays))
    {
      assert arrays[j..][1..] == arrays[j + 1..];
      var eventArray := arrays[j];
      if IsHandledKind(eventArray.kind) {
        EarliestAppend(first, EventTimes(eventArray.events), ArrayTimes(arrays[j + 1..]));
        LatestAppend(last, EventTimes(eventArray.events), ArrayTimes(arrays[j + 1..]));
        first, last := ScanEvents(first, last, eventArray.events);
      } else {
        assert ArrayTimes(arrays[j..]) == ArrayTimes(arrays[j + 1..]);
      }
      j := j + 1;
    }
  }

  /** `calculateDatesWithCoolDownAndWarmUp`: loads every recording in turn (a
      load failure ends the program), scans the handled events for the
      earliest and latest time, then shifts the start by the warm-up and the
      end by the cool-down seconds. */
  method CalculateDatesWithCoolDownAndWarmUp(a: A.Arguments, recordings: seq<Recording>) returns (r: Result<Window, Failure>)
    ensures r == TrimWindow(a, recordings)
  {
    var first: Option<int> := None;
    var last: Option<int> := None;
    ghost var seen: seq<int> := [];
    var i := 0;
    assert recordings[0..] == recordings;
    assert Prepend(seen, RecordingTimes(recordings)) == RecordingTimes(recordings) by {
      if RecordingTimes(recordings).Ok? {
        assert seen + RecordingTimes(recordings).value == RecordingTimes(recordings).value;
      }
    }
    while i < |recordings|
      invariant 0 <= i <= |recordings|
      invariant RecordingTimes(recordings) == Prepend(seen, RecordingTimes(recordings[i..]))
      invariant first == Earliest(None, seen) && last == Latest(None, seen)
    {
      assert recordings[i..][1..] == recordings[i + 1..];
      if recordings[i].Unreadable? {
        return Err(RecordingUnreadable);
      }
      var arrays := recordings[i].arrays;
      EarliestAppend(None, seen, ArrayTimes(arrays));
      LatestAppend(None, seen, ArrayTimes(arrays));
      first, last := ScanArrays(first, last, arrays);
      PrependTwice(seen, ArrayTimes(arrays), RecordingTimes(recordings[i + 1..]));
      seen := seen + ArrayTimes(arrays);
      i := i + 1;
    }
    assert seen + [] == seen;
    if first.None? || last.None? {
      return Err(NoEventTimes);
    }
    return Ok(Window(first.value + a.warmUp * 1000, last.value - a.coolDown * 1000));
  }

  lemma PrependTwice(xs: seq<int>, ys: seq<int>, r: Result<seq<int>, Failure>)
    ensures Prepend(xs, Prepend(ys, r)) == Prepend(xs + ys, r)
  {
    if r.Ok? {
      assert xs + (ys + r.value) == (xs + ys) + r.value;
    }
  }

  /** `calculateDates` as the program runs it. */
  method CalculateDates(a: A.Arguments, recordings: seq<Recording>, parseDate: string -> Option<int>) returns (r: Result<Option<Window>, Failure>)
    ensures r == Dates(a, recordings, parseDate)
  {
    if a.commonLogDateStr.Some? {
      var w := AccessLogWindow(a, parseDate);
      return if w.Ok? then Ok(Some(w.value)) else Err(w.error);
    } else if a.coolDown != 0 || a.warmUp != 0 {
      var w := CalculateDatesWithCoolDownAndWarmUp(a, recordings);
      return if w.Ok? then Ok(Some(w.value)) else Err(w.error);
    }
    return Ok(None);
  }

  /** The times of the example recordings, in milliseconds and in the order
      the recordings list them. */
  lemma ExampleTimes(e: Event)
    ensures RecordingTimes([Loaded([EventArray("jdk.ExecutionSample", true, [
        e.(startTimeNs := 0), e.(startTimeNs := 1000000000)])]),
      Loaded([EventArray("jdk.JavaMonitorEnter", false, [
        e.(startTimeNs := 3000000000), e.(startTimeNs := 2000000000)])])])
      == Ok([0, 1000, 3000, 2000])
  {
    var wall := EventArray("jdk.ExecutionSample", true, [e.(startTimeNs := 0), e.(startTimeNs := 1000000000)]);
    var lock := EventArray("jdk.JavaMonitorEnter", false, [e.(startTimeNs := 3000000000), e.(startTimeNs := 2000000000)]);
    assert IsHandledKind(wall.kind) && IsHandledKind(lock.kind);
    assert EventTimes(wall.events) == [0, 1000];
    assert EventTimes(lock.events) == [3000, 2000];
    assert ArrayTimes([wall]) == [0, 1000];
    assert ArrayTimes([lock]) == [3000, 2000];
    var recordings := [Loaded([wall]), Loaded([lock])];
    assert recordings[1..] == [Loaded([lock])];
    assert RecordingTimes(recordings[1..]) == Ok([3000, 2000] + []);
    assert RecordingTimes(recordings) == Ok([0, 1000] + [3000, 2000]);
    assert [0, 1000] + [3000, 2000] == [0, 1000, 3000, 2000];
  }

  /** Recordings with handled events at 0, 1, 2 and 3 seconds, trimmed by one
      second at each end, keep the window [1 s, 2 s]. */
  lemma TrimExample(a: A.Arguments, e: Event)
    requires a.warmUp == 1 && a.coolDown == 1
    ensures TrimWindow(a, [Loaded([EventArray("jdk.ExecutionSample", true, [
        e.(startTimeNs := 0), e.(startTimeNs := 1000000000)])]),
      Loaded([EventArray("jdk.JavaMonitorEnter", false, [
        e.(startTimeNs := 3000000000), e.(startTimeNs := 2000000000)])])])
      == Ok(Window(1000, 2000))
  {
    ExampleTimes(e);
    ExampleSpan();
  }

  /** The earliest of the example times is 0 and the latest 3000. */
  lemma ExampleSpan()
    ensures Earliest(None, [0, 1000, 3000, 2000]) == Some(0)
    ensures Latest(None, [0, 1000, 3000, 2000]) == Some(3000)
  {
    var times := [0, 1000, 3000, 2000];
    EarliestIsMinimum(None, times);
    LatestIsMaximum(None, times);
    assert times[0] == 0 && times[2] == 3000;
  }
}
