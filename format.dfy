/**
 * `formatMessage`: renders a record as Telegram HTML in a fixed order (level
 * header, optional timestamp, message, error block, context lines) and cuts
 * the result at `MESSAGE_LENGTH_LIMIT`, appending a marker.
 */
module Format {
  import opened Js
  import opened Strings
  import opened Levels
  import opened LogRecords

  type PositiveNat = n: nat | n > 0 witness 1

  /** `MESSAGE_LENGTH_LIMIT`. Its value is defined outside this model; it is positive. */
  const MESSAGE_LENGTH_LIMIT: PositiveNat

  /** Appended to a message cut at the limit. */
  const TRUNCATION_MARKER: string := "...\n<i>(message truncated)</i>"

  /** Keys never rendered as context: the record's own fields and pino's process metadata. */
  const RESERVED_KEYS: seq<string> := ["time", "level", "msg", "err", "pid", "hostname", "v"]

  /** What `formatMessage` produces: the text, or the RangeError `toISOString` throws for an invalid time. */
  datatype FormatResult = Rendered(text: string) | InvalidTime

  // ----- the pieces, in rendering order -----

  /** `<b>[LEVEL]</b>`, the upper-cased name of the record's effective level. */
  function LevelHeader(log: LogEntry): string {
    "<b>[" + ToUpper(Name(GetLevelName(log.level.GetOr(DEFAULT_LOG_LEVEL_VALUE)))) + "]</b>"
  }

  /** `new Date(log.time ?? Date.now()).toISOString()`. */
  function Timestamp(log: LogEntry, rt: Runtime): Option<string> {
    rt.isoString(if log.time.Undefined? || log.time.Null? then Number(rt.now) else log.time)
  }

  /** `log.msg ?? 'No message'`. */
  function MessageText(log: LogEntry): string {
    log.msg.GetOr("No message")
  }

  /** The error's own `message` when it is an object that has one, `String(err)` otherwise. */
  function ErrorText(err: Value, rt: Runtime): string {
    if IsTypeofObject(err) && HasKey(err, "message") then ToJsString(Property(err, "message"), rt.numberText)
    else ToJsString(err, rt.numberText)
  }

  /** The `<pre>` stack line, present only for an object whose `stack` is truthy. */
  function StackLine(err: Value, rt: Runtime): string {
    if IsTypeofObject(err) && HasKey(err, "stack") && Truthy(Property(err, "stack")) then
      "\n<pre>" + ToJsString(Property(err, "stack"), rt.numberText) + "</pre>"
    else ""
  }

  /** The error block, present only when `log.err` is truthy. */
  function ErrorBlock(err: Value, rt: Runtime): string {
    if Truthy(err) then "\n\n<b>Error:</b> " + ErrorText(err, rt) + StackLine(err, rt) else ""
  }

  /** The context entries: those whose key is not reserved, in record order. */
  function ContextEntries(fields: seq<(string, Value)>): (r: seq<(string, Value)>)
    ensures |r| <= |fields|
    ensures forall p :: p in r <==> p in fields && p.0 !in RESERVED_KEYS
  {
    if fields == [] then []
    else (if fields[0].0 in RESERVED_KEYS then [] else [fields[0]]) + ContextEntries(fields[1..])
  }

  /** A context value as text: `JSON.stringify` for objects (and null), `String` for the rest. */
  function ValueText(v: Value, rt: Runtime): string {
    if IsTypeofObject(v) then rt.stringify(v) else ToJsString(v, rt.numberText)
  }

  /** One context line, `\n- key: <code>value</code>`. */
  function ContextLine(entry: (string, Value), rt: Runtime): string {
    "\n- " + entry.0 + ": <code>" + ValueText(entry.1, rt) + "</code>"
  }

  /** The lines of the given entries, in order. */
  function ContextLines(entries: seq<(string, Value)>, rt: Runtime): string {
    if entries == [] then ""
    else ContextLines(entries[..|entries| - 1], rt) + ContextLine(entries[|entries| - 1], rt)
  }

  /** The context block: one blank line, then the lines, when at least one entry remains. */
  function ContextBlock(fields: seq<(string, Value)>, rt: Runtime): string {
    var entries := ContextEntries(fields);
    if |entries| > 0 then "\n" + ContextLines(entries, rt) else ""
  }

  /** The text before truncation, or None when the timestamp cannot be rendered. */
  function Untruncated(log: LogEntry, includeTimestamp: bool, rt: Runtime): Option<string> {
    var body := "\n" + MessageText(log) + ErrorBlock(log.err, rt) + ContextBlock(log.context, rt);
    if !includeTimestamp then Some(LevelHeader(log) + body)
    else match Timestamp(log, rt)
      case None => None
      case Some(t) => Some(LevelHeader(log) + (" " + t) + body)
  }

  /**
   * The hard cut: a text longer than the limit keeps its first
   * `MESSAGE_LENGTH_LIMIT` characters and gains the marker; any other text is
   * kept as it is.
   */
  function Truncate(s: string): (r: string)
    ensures |s| <= MESSAGE_LENGTH_LIMIT ==> r == s
    ensures |s| > MESSAGE_LENGTH_LIMIT ==>
      |r| == MESSAGE_LENGTH_LIMIT + |TRUNCATION_MARKER|
      && r[..MESSAGE_LENGTH_LIMIT] == s[..MESSAGE_LENGTH_LIMIT]
      && r[MESSAGE_LENGTH_LIMIT..] == TRUNCATION_MARKER
    ensures |r| <= MESSAGE_LENGTH_LIMIT + |TRUNCATION_MARKER|
  {
    if |s| > MESSAGE_LENGTH_LIMIT then s[..MESSAGE_LENGTH_LIMIT] + TRUNCATION_MARKER else s
  }

  /** What `formatMessage(log, {includeTimestamp})` returns or throws. */
  function Formatted(log: LogEntry, includeTimestamp: bool, rt: Runtime): FormatResult {
    match Untruncated(log, includeTimestamp, rt)
    case None => InvalidTime
    case Some(s) => Rendered(Truncate(s))
  }

  /** The untruncated text as the formatter assembles it, left to right. */
  lemma UntruncatedParts(log: LogEntry, includeTimestamp: bool, rt: Runtime, head: string)
    requires !includeTimestamp ==> head == LevelHeader(log)
    requires includeTimestamp ==> Timestamp(log, rt).Some? && head == LevelHeader(log) + (" " + Timestamp(log, rt).value)
    ensures Untruncated(log, includeTimestamp, rt)
         == Some(head + ("\n" + MessageText(log)) + ErrorBlock(log.err, rt) + ContextBlock(log.context, rt))
  {
    var m, e, c := "\n" + MessageText(log), ErrorBlock(log.err, rt), ContextBlock(log.context, rt);
    ConcatAssoc(m, e, c);
    ConcatAssoc(head, m + e, c);
    ConcatAssoc(head, m, e);
  }

  lemma ConcatAssoc(a: string, b: string, c: string)
    ensures a + b + c == a + (b + c)
  {
  }

  /** Rendering one more entry appends its line. */
  lemma ContextLinesStep(entries: seq<(string, Value)>, i: nat, rt: Runtime)
    requires i < |entries|
    ensures ContextLines(entries[..i + 1], rt) == ContextLines(entries[..i], rt) + ContextLine(entries[i], rt)
  {
    assert entries[..i + 1][..i] == entries[..i];
  }

  // ----- the formatter -----

  /** The `for` loop of `formatMessage`: one `\n- key: <code>value</code>` line per entry, in order. */
  method AppendContextLines(formatted: string, contextKeys: seq<(string, Value)>, rt: Runtime) returns (r: string)
    ensures r == formatted + ContextLines(contextKeys, rt)
  {
    r := formatted;
    for i := 0 to |contextKeys|
      invariant r == formatted + ContextLines(contextKeys[..i], rt)
    {
      var (key, v) := contextKeys[i];
      var value := ValueText(v, rt);
      var line := "\n- " + key + ": <code>" + value + "</code>";
      assert line == ContextLine(contextKeys[i], rt);
      ContextLinesStep(contextKeys, i, rt);
      ConcatAssoc(formatted, ContextLines(contextKeys[..i], rt), line);
      r := r + line;
    }
    assert contextKeys[..|contextKeys|] == contextKeys;
  }

  /** `formatMessage(log, {includeTimestamp})`, growing the text piece by piece. */
  method FormatMessage(log: LogEntry, includeTimestamp: bool, rt: Runtime) returns (r: FormatResult)
    ensures r == Formatted(log, includeTimestamp, rt)
  {
    var level := GetLevelName(log.level.GetOr(DEFAULT_LOG_LEVEL_VALUE));
    var message := log.msg.GetOr("No message");
    var formatted := "<b>[" + ToUpper(Name(level)) + "]</b>";
    if includeTimestamp {
      var timestamp := rt.isoString(if log.time.Undefined? || log.time.Null? then Number(rt.now) else log.time);
      if timestamp.None? {
        return InvalidTime;
      }
      formatted := formatted + (" " + timestamp.value);
    }
    ghost var head := formatted;
    assert !includeTimestamp ==> head == LevelHeader(log);
    assert includeTimestamp ==> Timestamp(log, rt).Some? && head == LevelHeader(log) + (" " + Timestamp(log, rt).value);
    formatted := formatted + ("\n" + message);
    ghost var beforeError := formatted;
    if Truthy(log.err) {
      var errorMessage := ErrorText(log.err, rt);
      formatted := formatted + ("\n\n<b>Error:</b> " + errorMessage);
      if IsTypeofObject(log.err) && HasKey(log.err, "stack") && Truthy(Property(log.err, "stack")) {
        formatted := formatted + ("\n<pre>" + ToJsString(Property(log.err, "stack"), rt.numberText) + "</pre>");
      }
    }
    assert formatted == beforeError + ErrorBlock(log.err, rt) by {
      if Truthy(log.err) {
        var lead := "\n\n<b>Error:</b> " + ErrorText(log.err, rt);
        var stack := StackLine(log.err, rt);
        assert formatted == beforeError + lead + stack;
        ConcatAssoc(beforeError, lead, stack);
      }
    }
    ghost var beforeContext := formatted;
    var contextKeys := ContextEntries(log.context);
    if |contextKeys| > 0 {
      formatted := formatted + "\n";
      formatted := AppendContextLines(formatted, contextKeys, rt);
      ConcatAssoc(beforeContext, "\n", ContextLines(contextKeys, rt));
    }
    assert formatted == beforeContext + ContextBlock(log.context, rt);
    ghost var full := formatted;
    assert Untruncated(log, includeTimestamp, rt) == Some(full) by {
      UntruncatedParts(log, includeTimestamp, rt, head);
    }
    if |formatted| > MESSAGE_LENGTH_LIMIT {
      formatted := formatted[..MESSAGE_LENGTH_LIMIT] + TRUNCATION_MARKER;
    }
    assert formatted == Truncate(full);
    r := Rendered(formatted);
  }
}

/** What the rendered message is known to look like, whatever the record. */
module FormatProperties {
  import opened Js
  import opened Strings
  import opened Levels
  import opened LogRecords
  import opened Format

  /** Filtering the context keys distributes over concatenation: record order is kept. */
  lemma {:induction false} ContextEntriesAppend(a: seq<(string, Value)>, b: seq<(string, Value)>)
    ensures ContextEntries(a + b) == ContextEntries(a) + ContextEntries(b)
  {
    if a == [] {
      assert a + b == b;
    } else {
      assert (a + b)[1..] == a[1..] + b;
      ContextEntriesAppend(a[1..], b);
    }
  }

  /** Rendering context lines distributes over concatenation. */
  lemma {:induction false} ContextLinesAppend(a: seq<(string, Value)>, b: seq<(string, Value)>, rt: Runtime)
    ensures ContextLines(a + b, rt) == ContextLines(a, rt) + ContextLines(b, rt)
  {
    if b == [] {
      assert a + b == a;
    } else {
      var b', x := b[..|b| - 1], b[|b| - 1];
      assert (a + b)[..|a + b| - 1] == a + b';
      assert (a + b)[|a + b| - 1] == x;
      ContextLinesAppend(a, b', rt);
      ConcatAssoc(ContextLines(a, rt), ContextLines(b', rt), ContextLine(x, rt));
    }
  }

  /** The context block is empty exactly when every key is reserved. */
  lemma ContextBlockEmptiness(fields: seq<(string, Value)>, rt: Runtime)
    ensures ContextBlock(fields, rt) == "" <==> ContextEntries(fields) == []
  {
    var es := ContextEntries(fields);
    if es != [] {
      assert |ContextBlock(fields, rt)| >= 1;
    }
  }

  /** The lines of a non-empty list of entries open with `\n- ` and the first key. */
  lemma {:induction false} ContextLinesOpening(es: seq<(string, Value)>, rt: Runtime)
    requires es != []
    ensures 3 + |es[0].0| <= |ContextLines(es, rt)|
    ensures ContextLines(es, rt)[..3 + |es[0].0|] == "\n- " + es[0].0
  {
    var n := 3 + |es[0].0|;
    var front := ContextLines(es[..|es| - 1], rt);
    var line := ContextLine(es[|es| - 1], rt);
    assert ContextLines(es, rt) == front + line;
    if |es| == 1 {
      assert front == "";
      assert line[..n] == "\n- " + es[0].0;
    } else {
      var init := es[..|es| - 1];
      assert init[0] == es[0];
      ContextLinesOpening(init, rt);
      assert (front + line)[..n] == front[..n];
    }
  }

  /** A non-empty context block opens with one extra line break, then the first `- key:` line. */
  lemma ContextBlockOpening(fields: seq<(string, Value)>, rt: Runtime)
    requires ContextEntries(fields) != []
    ensures var key := ContextEntries(fields)[0].0;
      && 4 + |key| <= |ContextBlock(fields, rt)|
      && ContextBlock(fields, rt)[..4 + |key|] == "\n\n- " + key
  {
    var es := ContextEntries(fields);
    var lines := ContextLines(es, rt);
    var key := es[0].0;
    assert ContextBlock(fields, rt) == "\n" + lines;
    ContextLinesOpening(es, rt);
    PrefixAfter("\n", lines, "\n- " + key);
    assert "\n" + ("\n- " + key) == "\n\n- " + key by {
      ConcatAssoc("\n", "\n- ", key);
      assert "\n" + "\n- " == "\n\n- ";
    }
  }

  lemma PrefixAfter(x: string, s: string, p: string)
    requires |p| <= |s| && s[..|p|] == p
    ensures |x + p| <= |x + s| && (x + s)[..|x + p|] == x + p
  {
    assert (x + s)[..|x + p|] == x + s[..|p|];
  }

  /** The error block is present exactly when `err` is truthy, and then opens with the bold label. */
  lemma ErrorBlockShape(err: Value, rt: Runtime)
    ensures ErrorBlock(err, rt) == "" <==> !Truthy(err)
    ensures Truthy(err) ==> ErrorBlock(err, rt)[..16] == "\n\n<b>Error:</b> "
  {
  }

  /** The stack line is present exactly when `err` is an object with a truthy `stack`. */
  lemma StackLineShape(err: Value, rt: Runtime)
    ensures StackLine(err, rt) != "" <==> err.Object? && Truthy(Property(err, "stack"))
  {
    if err.Object? && Truthy(Property(err, "stack")) {
      assert HasKey(err, "stack");
    }
  }

  /** An error object with a string `message` shows exactly that string; a string error shows itself. */
  lemma ErrorTextOfStrings(fields: seq<(string, Value)>, message: string, text: string, rt: Runtime)
    requires Lookup(fields, "message") == Some(Str(message))
    ensures ErrorText(Object(fields), rt) == message
    ensures ErrorText(Str(text), rt) == text
  {
  }

  /** A text of at most the limit is kept whole; a longer one is cut, keeping its first `MESSAGE_LENGTH_LIMIT` characters. */
  lemma TruncatePrefix(s: string, k: nat)
    requires k <= |s| && k <= MESSAGE_LENGTH_LIMIT
    ensures k <= |Truncate(s)| && Truncate(s)[..k] == s[..k]
  {
    if |s| > MESSAGE_LENGTH_LIMIT {
      assert Truncate(s)[..k] == Truncate(s)[..MESSAGE_LENGTH_LIMIT][..k];
    }
  }

  /**
   * The message starts with the level header `<b>[LEVEL]</b>` (as far as the
   * limit leaves it), followed by a line break, or by a space and the
   * timestamp when timestamps are on.
   */
  lemma HeaderFirst(log: LogEntry, includeTimestamp: bool, rt: Runtime)
    requires Formatted(log, includeTimestamp, rt).Rendered?
    ensures var t := Formatted(log, includeTimestamp, rt).text; var h := LevelHeader(log);
      && (|h| <= MESSAGE_LENGTH_LIMIT ==> |h| <= |t| && t[..|h|] == h)
      && (|h| < MESSAGE_LENGTH_LIMIT ==> |h| < |t| && t[|h|] == (if includeTimestamp then ' ' else '\n'))
  {
    var u := Untruncated(log, includeTimestamp, rt).value;
    var h := LevelHeader(log);
    assert u[..|h|] == h;
    assert |h| < |u| && u[|h|] == (if includeTimestamp then ' ' else '\n');
    if |h| <= MESSAGE_LENGTH_LIMIT {
      TruncatePrefix(u, |h|);
    }
    if |h| < MESSAGE_LENGTH_LIMIT {
      TruncatePrefix(u, |h| + 1);
      assert Truncate(u)[..|h| + 1][|h|] == u[..|h| + 1][|h|];
    }
  }

  /**
   * Without a timestamp the message text comes right after the header and its
   * line break, as far as the limit leaves it: the record's `msg`, including an
   * empty one, or "No message" when it has none.
   */
  lemma MessageAfterHeader(log: LogEntry, rt: Runtime)
    requires |LevelHeader(log)| + 1 + |MessageText(log)| <= MESSAGE_LENGTH_LIMIT
    ensures var t := Formatted(log, false, rt).text; var h := LevelHeader(log); var m := MessageText(log);
      && |h| + 1 + |m| <= |t| && t[|h|..|h| + 1 + |m|] == "\n" + m
    ensures MessageText(log) == (if log.msg.Some? then log.msg.value else "No message")
  {
    var h, m := LevelHeader(log), MessageText(log);
    var e, c := ErrorBlock(log.err, rt), ContextBlock(log.context, rt);
    UntruncatedParts(log, false, rt, h);
    var u := Untruncated(log, false, rt).value;
    var front := h + ("\n" + m);
    assert u == front + (e + c) by { ConcatAssoc(front, e, c); }
    PrefixOfConcat(front, e + c);
    var k := |front|;
    TruncatePrefix(u, k);
    var t := Truncate(u);
    assert t[..k] == front;
    assert t[|h|..k] == t[..k][|h|..];
    assert front[|h|..] == "\n" + m;
  }

  lemma PrefixOfConcat(x: string, y: string)
    ensures |x| <= |x + y| && (x + y)[..|x|] == x
  {
  }

  /** Context lines depend only on the runtime's number and JSON renderings. */
  lemma {:induction false} ContextLinesRuntime(entries: seq<(string, Value)>, rt1: Runtime, rt2: Runtime)
    requires rt1.numberText == rt2.numberText && rt1.stringify == rt2.stringify
    ensures ContextLines(entries, rt1) == ContextLines(entries, rt2)
  {
    if entries != [] {
      ContextLinesRuntime(entries[..|entries| - 1], rt1, rt2);
      assert ValueText(entries[|entries| - 1].1, rt1) == ValueText(entries[|entries| - 1].1, rt2);
    }
  }

  /** With timestamps off, the clock and date formatting play no part in the output, and it always renders. */
  lemma ClockIndependent(log: LogEntry, rt1: Runtime, rt2: Runtime)
    requires rt1.numberText == rt2.numberText && rt1.stringify == rt2.stringify
    ensures Formatted(log, false, rt1) == Formatted(log, false, rt2)
    ensures Formatted(log, false, rt1).Rendered?
  {
    ContextLinesRuntime(ContextEntries(log.context), rt1, rt2);
    assert ErrorText(log.err, rt1) == ErrorText(log.err, rt2);
    assert StackLine(log.err, rt1) == StackLine(log.err, rt2);
  }

  /** A record at level 50 carries the header `<b>[ERROR]</b>`. */
  lemma ErrorHeader(log: LogEntry)
    requires log.level == Some(50.0)
    ensures LevelHeader(log) == "<b>[ERROR]</b>"
  {
    assert GetLevelName(50.0) == Error;
    assert ToUpper("error") == "ERROR";
  }

  /**
   * The documented example: `{level: 50, msg, time}` renders as the bold
   * `[ERROR]` header, then the time's ISO text when timestamps are on, then
   * the message on the next line.
   */
  lemma ErrorRecordExample(msg: string, time: real, iso: string, rt: Runtime)
    requires rt.isoString(Number(time)) == Some(iso)
    ensures Formatted(LogEntry(Number(time), Some(50.0), Some(msg), Undefined, []), false, rt)
         == Rendered(Truncate("<b>[ERROR]</b>\n" + msg))
    ensures Formatted(LogEntry(Number(time), Some(50.0), Some(msg), Undefined, []), true, rt)
         == Rendered(Truncate("<b>[ERROR]</b> " + iso + "\n" + msg))
  {
    var log := LogEntry(Number(time), Some(50.0), Some(msg), Undefined, []);
    var h := "<b>[ERROR]</b>";
    ErrorHeader(log);
    assert ContextBlock(log.context, rt) == "" by { assert ContextEntries([]) == []; }
    UntruncatedParts(log, false, rt, h);
    assert h + ("\n" + msg) + "" + "" == "<b>[ERROR]</b>\n" + msg by {
      ConcatAssoc(h, "\n", msg);
    }
    UntruncatedParts(log, true, rt, h + (" " + iso));
    assert h + (" " + iso) + ("\n" + msg) + "" + "" == "<b>[ERROR]</b> " + iso + "\n" + msg by {
      ConcatAssoc(h, " ", iso);
      ConcatAssoc(h + " " + iso, "\n", msg);
      assert h + " " == "<b>[ERROR]</b> ";
    }
  }

  /** A record whose only keys are pino's metadata renders no context block. */
  lemma MetadataOnlyHasNoContext(pid: Value, hostname: Value, v: Value, rt: Runtime)
    ensures ContextBlock([("pid", pid), ("hostname", hostname), ("v", v)], rt) == ""
  {
    var fields := [("pid", pid), ("hostname", hostname), ("v", v)];
    assert fields[1..] == [("hostname", hostname), ("v", v)];
    assert fields[1..][1..] == [("v", v)];
    assert fields[1..][1..][1..] == [];
  }
}
