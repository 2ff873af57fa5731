/** The part of a loaded flight recording that the converter reads, in place
    of the recording library's event arrays and member accessors. */
module Recording {
  import opened Wrappers
  import JfrParser

  /** One recorded event as the converter's accessors see it: the start time
      in nanoseconds, the thread, the stack frames leaf first, the thread state
      (null when the state accessor returns null), the class read by the
      monitor-class or object-class accessor, and the allocation size. */
  datatype Event = Event(
    startTimeNs: int,
    thread: Option<JfrParser.FlrThread>,
    frames: seq<JfrParser.Method>,
    state: Option<string>,
    typeName: string,
    size: int)

  /** The events of one event type: the type's identifier, whether a state
      accessor was found for the type, and the events. */
  datatype EventArray = EventArray(kind: string, hasState: bool, events: seq<Event>)

  /** A recording file after loading: its event arrays, or a file that could
      not be read or parsed. */
  datatype Recording = Loaded(arrays: seq<EventArray>) | Unreadable
}
