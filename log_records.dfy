/**
 * Log records (`ILogEntry`), the raw chunks the stream receives, the runtime
 * services the core calls (clock, JSON, dates), and `parseLog`, which turns a
 * chunk into a record.
 */
module LogRecords {
  import opened Js
  import opened Levels

  /**
   * A log record read through the `ILogEntry` interface. `time` and `err` are
   * `Undefined` when the record has no such key. `context` holds every other
   * own key with its value, in `Object.keys` order.
   */
  datatype LogEntry = LogEntry(
    time: Value,
    level: Option<real>,
    msg: Option<string>,
    err: Value,
    context: seq<(string, Value)>)

  /** What the stream hands to `_write`: a text chunk or an already structured record. */
  datatype Chunk = Text(text: string) | Structured(log: LogEntry)

  /**
   * What `parseLog` yields: a record, or the JSON value `null`, which parses
   * but is no object (reading its `level` then throws a TypeError).
   */
  datatype Normalized = Entry(log: LogEntry) | JsonNull

  /**
   * The runtime calls the core makes, with their results given rather than
   * computed: `Date.now()`, the decimal text of a number, `JSON.stringify`,
   * `new Date(t).toISOString()` (None when it throws a RangeError) and
   * `JSON.parse` read as a log record (None when it throws a SyntaxError).
   */
  datatype Runtime = Runtime(
    now: real,
    numberText: real -> string,
    stringify: Value -> string,
    isoString: Value -> Option<string>,
    jsonParse: string -> Option<Normalized>)

  /** The record built for text that is not JSON: its message, the default level and the current time. */
  function FreeTextRecord(text: string, now: real): (log: LogEntry)
    ensures log.msg == Some(text) && log.level == Some(DEFAULT_LOG_LEVEL_VALUE)
    ensures log.time == Number(now) && log.err == Undefined && log.context == []
  {
    LogEntry(Number(now), Some(DEFAULT_LOG_LEVEL_VALUE), Some(text), Undefined, [])
  }

  /**
   * `parseLog(chunk)`: a structured chunk is returned as it is; a text chunk
   * is what `JSON.parse` makes of it, unchecked, or the free-text record when
   * it is not JSON. Every chunk yields a result.
   */
  function ParseLog(chunk: Chunk, rt: Runtime): (r: Normalized)
    ensures chunk.Structured? ==> r == Entry(chunk.log)
    ensures chunk.Text? && rt.jsonParse(chunk.text).Some? ==> r == rt.jsonParse(chunk.text).value
    ensures chunk.Text? && rt.jsonParse(chunk.text).None? ==>
      r.Entry? && r.log.msg == Some(chunk.text) && r.log.level == Some(DEFAULT_LOG_LEVEL_VALUE)
      && r.log.time == Number(rt.now) && r.log.err == Undefined && r.log.context == []
  {
    match chunk
    case Structured(log) => Entry(log)
    case Text(text) =>
      match rt.jsonParse(text)
      case Some(parsed) => parsed
      case None => Entry(FreeTextRecord(text, rt.now))
  }
}
