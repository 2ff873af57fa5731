/** The command-line settings record (Arguments.java). Java's `null` for an
    unset reference field is `None`. */
module Arguments {
  import opened Wrappers

  /** Whether `path` names a directory to walk or one recording file. */
  datatype ParserType = Directory | File

  /** Whether to stream every event with its timestamp instead of aggregating. */
  datatype TimestampFeature = Enabled | Disabled

  datatype Arguments = Arguments(
    path: Option<string>,
    parserType: Option<ParserType>,
    timestampFeature: TimestampFeature,
    commonLogDateStr: Option<string>,
    durationTimeMsStr: Option<string>,
    thread: Option<string>,
    warmUp: int,
    coolDown: int)

  /** The record as `new Arguments()` creates it, before any flag is read. */
  function Default(): Arguments {
    Arguments(
      path := None,
      parserType := None,
      timestampFeature := Disabled,
      commonLogDateStr := None,
      durationTimeMsStr := None,
      thread := None,
      warmUp := 0,
      coolDown := 0)
  }
}
