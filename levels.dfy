/** logrus log levels, the entry a log call produces, and the level icon
    table of hooks/logrus/mmhooklogrus.go. */
module LogEntry {
  import opened Buffers

  /** A logrus level, from most severe (Panic = 0) to least (Trace = 6).
      Indexing the 7-entry tables with a larger value is a Go run-time
      panic, so the model admits only these seven values. */
  type Level = l: nat | l < 7

  const Panic: Level := 0
  const Fatal: Level := 1
  const Error: Level := 2
  const Warn: Level := 3
  const Info: Level := 4
  const Debug: Level := 5
  const Trace: Level := 6

  /** logrus.AllLevels, in its own order. */
  const AllLevels: seq<Level> := [Panic, Fatal, Error, Warn, Info, Debug, Trace]

  /** _iconsLevel: the icon written before each log line, by level. */
  const IconsLevel: seq<Bytes> := [
    ":x:", ":bangbang:", ":exclamation:", ":interrobang:",
    ":white_circle:", ":black_circle:", ":mag_right:"
  ]

  function Icon(l: Level): Bytes {
    IconsLevel[l]
  }

  /** A logrus entry: its level, its message, and its data, each value
      already rendered the way `fmt.Sprintf("%+v", v)` renders it. */
  datatype Entry = Entry(level: Level, message: Bytes, data: map<Bytes, Bytes>)
}
