# pino-telegram: the decision and rendering pipeline, in Dafny

pino-telegram is a Pino transport that forwards log records to a Telegram chat
through the Bot API. This project models its deterministic core and proves
properties of that model:

- the **level registry**: the `LEVEL_NAMES` and `LOG_LEVELS` tables and
  `getLevelName` (module `Levels`, `levels.dfy`);
- the **normaliser** `parseLog`, which turns a stream chunk into a record
  (module `LogRecords`, `log_records.dfy`);
- the **filter** `shouldSendLog`: a non-empty `onlyLevels` list replaces the
  minimum level, and `excludeLevels` always vetoes (module `Filter`,
  `filter.dfy`);
- the **formatter** `formatMessage`, written as the imperative method it is. It
  grows the text piece by piece: the HTML level header, the optional timestamp,
  the message, the error block, the context lines, and at the end a hard cut at
  `MESSAGE_LENGTH_LIMIT` with a marker appended. It is proved equal to a
  specification function built from those pieces, and the properties of the
  rendered text are proved about that function (modules `Format` and
  `FormatProperties`, `format.dfy`);
- **sending** (`sendToTelegram`): the URL and payload it builds, and how a
  network outcome becomes a `TelegramApiError` or a wrapped
  `TelegramTransportError` (modules `Errors` and `Send`, `errors.dfy`,
  `send.dfy`);
- the **transport** class `TelegramTransport`: it covers the constructor's
  validation and defaults, and the per-record decision of `_write` (drop, or
  send and to which forum thread, and which error is emitted). It also covers
  `getConfig`, which never exposes the bot token (module `Transport`,
  `transport.dfy`).

Supporting modules: `Js` (`js.dfy`) has JavaScript values, truthiness,
`typeof … === 'object'`, own-key lookup and the `String(…)` coercion.
`Strings` (`strings.dfy`) has `trim`, ASCII upper-casing and decimal digits.

The runtime services the core calls are parameters, not computations. A
`Runtime` value carries:

- `Date.now()`;
- the decimal text of a number;
- `JSON.stringify`;
- `toISOString` (absent when it throws a `RangeError`);
- `JSON.parse` (absent when it throws a `SyntaxError`).

`fetch` is a function from the request to its outcome. `DEFAULT_LEVEL`,
`DEFAULT_LOG_LEVEL_VALUE`, `MESSAGE_LENGTH_LIMIT`, `DEFAULT_PARSE_MODE` and
`DEFAULT_API_URL` are defined in files outside this model. They are declared
as constants with no value, so every proof holds whatever their values are.
The only things assumed are that `DEFAULT_LEVEL` is one of the six names, and
that the limit is positive.

Documentation and code disagree here, and the model follows the code:

- The fallback of `getLevelName` is documented as `"trace"`
  (src/functions/getLevelName.ts:13), while the default minimum level is
  documented as `'info'` (src/types/ITelegramTransportOptions.ts:24). Both are
  the constant `DEFAULT_LEVEL`, whose value is not part of this model.
- The constructor reads `options.threadIds` (src/TelegramTransport.ts:75), but
  the options interface as shown has no such key. The model gives its
  `Options` a `threadIds` field typed like `ThreadIdMapping`
  (src/constants/THREAD_IDS.ts:8).

## Model

| member | source | states |
|---|---|---|
| Levels.GetLevelName | src/functions/getLevelName.ts:18-20 | one of the six numeric levels yields the name whose `LOG_LEVELS` value it is; every other number yields `DEFAULT_LEVEL`, and no input fails |
| Levels.LevelNamesKeys | src/constants/LEVEL_NAMES.ts:5-12 | `LEVEL_NAMES` has exactly the keys 10, 20, 30, 40, 50, 60 |
| Levels.LogLevelsValues | src/constants/LOG_LEVELS.ts:5-12 | `LOG_LEVELS` takes exactly the values 10..60, strictly increasing from trace to fatal, and covers all six names |
| Levels.LevelNamesAscending | src/constants/LEVEL_NAMES.ts:6-11 | read in ascending key order, the names are trace, debug, info, warn, error, fatal |
| Levels.TablesInjective | src/constants/LEVEL_NAMES.ts:5-12 | neither table maps two keys to one value, and the six names are distinct |
| Levels.TablesInverse | src/constants/LOG_LEVELS.ts:5-12 | `LEVEL_NAMES[LOG_LEVELS[n]] == n` for every name, and `LOG_LEVELS[LEVEL_NAMES[x]] == x` for every key |
| Levels.GetLevelNameRoundTrip | src/functions/getLevelName.ts:19 | `getLevelName(LOG_LEVELS[n]) == n` for every name |
| Levels.GetLevelNameTable | src/functions/getLevelName.ts:12-19 | 10..60 map to trace..fatal (50 to error, as documented); 999 and 10.5 map to `DEFAULT_LEVEL` |
| LogRecords.FreeTextRecord | src/functions/parseLog.ts:28-32 | the fallback record holds the raw text as `msg`, `DEFAULT_LOG_LEVEL_VALUE` as level and the clock reading as time, has no `err` key (`undefined`) and no other fields |
| LogRecords.ParseLog | src/functions/parseLog.ts:18-34 | a structured chunk is returned unchanged; parseable text yields the parse result unchecked; other text yields the free-text record: `msg` is the text, the default level, the clock reading as `time`, no `err` and no context; every chunk yields a result |
| Filter.ShouldSendLog | src/functions/shouldSendLog.ts:48-79 | an excluded level name is always refused; with a non-empty `onlyLevels` the result is true iff the name is listed and not excluded; otherwise it is true iff (no minimum, or level ≥ `LOG_LEVELS[min]`) and the name is not excluded |
| Filter.EmptyOnlyLevelsIsAbsent | src/functions/shouldSendLog.ts:54 | an empty `onlyLevels` list decides exactly as an absent one |
| Filter.OnlyLevelsIgnoresMinimum | src/functions/shouldSendLog.ts:54-63 | with a non-empty `onlyLevels`, changing the minimum level never changes the result |
| Filter.NoPolicySendsAllNotExcluded | src/functions/shouldSendLog.ts:66-78 | with neither `onlyLevels` nor a minimum, a record is sent iff its name is not excluded |
| Filter.MissingLevelIsDefault | src/functions/shouldSendLog.ts:50-51 | a record without `level` is judged like one at `DEFAULT_LOG_LEVEL_VALUE`, for the name and for the comparison |
| Filter.RaisingLevelKeepsPass | src/functions/shouldSendLog.ts:67-78 | with no lists, a record that passes still passes at any higher level |
| Filter.LoweringMinimumKeepsPass | src/functions/shouldSendLog.ts:67-78 | on the minimum-level path, lowering the minimum never turns a pass into a fail, whatever is excluded |
| Filter.DocumentedExamples | src/functions/shouldSendLog.ts:36-43 | level 50 passes minimum warn, passes only [error, fatal], and is refused at minimum info when error is excluded |
| Filter.ExcludeWinsExamples | src/functions/shouldSendLog.ts:54-78 | a level both listed and excluded is refused; an info record is refused at minimum warn |
| Strings.TrimShape | src/TelegramTransport.ts:57-67 | what `trim` keeps neither starts nor ends with whitespace, and it is empty iff the input is all whitespace |
| Strings.TrimIsSlice | src/TelegramTransport.ts:65-67 | what `trim` keeps is a contiguous slice of the input, and everything it drops on either side is whitespace |
| Strings.TrimIdempotent | src/TelegramTransport.ts:65-67 | trimming twice equals trimming once |
| Strings.ToUpper | src/functions/formatMessage.ts:35 | upper-casing keeps the length and maps each character on its own |
| Strings.NatToDecimal | src/errors/TelegramApiError.ts:13 | the decimal text of a status code is non-empty, all digits, without leading zeros, and reads back as the number |
| Format.ContextEntries | src/functions/formatMessage.ts:58-60 | the context entries are exactly the record's entries whose key is not one of time, level, msg, err, pid, hostname, v |
| Format.Truncate | src/functions/formatMessage.ts:73-76 | a text within the limit is unchanged; a longer one becomes its first `MESSAGE_LENGTH_LIMIT` characters followed by the marker; the result never exceeds the limit plus the marker's length |
| Format.AppendContextLines | src/functions/formatMessage.ts:64-69 | the loop appends the context lines of all entries, in order, to the text so far |
| Format.FormatMessage | src/functions/formatMessage.ts:31-79 | the imperative formatter yields exactly the specified text: header, optional timestamp, message, error block, context block, then the cut; an unrenderable time yields the RangeError |
| FormatProperties.ContextEntriesAppend | src/functions/formatMessage.ts:58-60 | filtering keys distributes over concatenation, so record order is kept |
| FormatProperties.ContextLinesAppend | src/functions/formatMessage.ts:64-69 | rendering context lines distributes over concatenation |
| FormatProperties.ContextBlockEmptiness | src/functions/formatMessage.ts:62-63 | the context block is empty iff no key survives the filter |
| FormatProperties.ContextLinesOpening | src/functions/formatMessage.ts:64-68 | the lines of a non-empty entry list start with `\n- ` and the first key |
| FormatProperties.ContextBlockOpening | src/functions/formatMessage.ts:62-68 | a non-empty context block starts with the one extra `\n`, then `\n- ` and the first remaining key |
| FormatProperties.ErrorBlockShape | src/functions/formatMessage.ts:45-50 | the error block is present iff `err` is truthy, and then starts with `\n\n<b>Error:</b> ` |
| FormatProperties.StackLineShape | src/functions/formatMessage.ts:52-54 | the `<pre>` stack line is present iff `err` is an object with a truthy `stack` |
| FormatProperties.ErrorTextOfStrings | src/functions/formatMessage.ts:46-48 | an error object whose `message` is a string shows that string; a string error shows itself |
| FormatProperties.TruncatePrefix | src/functions/formatMessage.ts:73-76 | the cut preserves every prefix up to the limit |
| FormatProperties.HeaderFirst | src/functions/formatMessage.ts:32-40 | a rendered message starts with `<b>[LEVEL]</b>` (as far as the limit allows), followed by a space when timestamps are on and by a line break otherwise |
| FormatProperties.MessageAfterHeader | src/functions/formatMessage.ts:33-42 | without a timestamp, and when header, line break and message fit within the limit, the header is followed by `\n` and the message: `msg` itself, an empty one included, or "No message" when absent |
| FormatProperties.ContextLinesRuntime | src/functions/formatMessage.ts:64-68 | context lines depend only on the number and JSON renderings |
| FormatProperties.ClockIndependent | src/functions/formatMessage.ts:31-78 | with timestamps off, the output never depends on the clock or on date formatting, and always renders |
| FormatProperties.ErrorHeader | src/functions/formatMessage.ts:32-35 | a level-50 record gets the header `<b>[ERROR]</b>` |
| FormatProperties.ErrorRecordExample | src/functions/formatMessage.ts:24-26 | the documented `{level: 50, msg, time}` renders as `<b>[ERROR]</b>`, then a space and the ISO time when timestamps are on, then `\n` and the message, cut at the limit |
| FormatProperties.MetadataOnlyHasNoContext | src/functions/formatMessage.ts:58-63 | a record whose extra keys are only pid, hostname and v renders no context block |
| Errors.ApiErrorMessage | src/errors/TelegramApiError.ts:13 | an API error's message is `Telegram API error: `, then the decimal status code and a space, then the response text, with nothing else |
| Errors.ErrorName | src/errors/TelegramApiError.ts:14 | a transport error is named `TelegramTransportError` and an API error `TelegramApiError` (each iff), and no other failure carries one of these names |
| Errors.Message | src/errors/TelegramTransportError.ts:10 | a transport error has the message it was built with; an API error's message is exactly `ApiErrorMessage` of its status and body |
| Errors.ApiErrorMessageInjective | src/errors/TelegramApiError.ts:13 | the message of an API error determines its status code and its response text |
| Errors.ApiErrorMessageExample | src/errors/TelegramApiError.ts:13 | status 400 with body "Bad Request" reads "Telegram API error: 400 Bad Request" |
| Send.RequestUrl | src/functions/sendToTelegram.ts:64 | the URL is the API base, `/bot`, the token and `/sendMessage`, in that order, with nothing else |
| Send.RequestUrlInjective | src/functions/sendToTelegram.ts:64 | for one API base, distinct tokens give distinct URLs |
| Send.RequestUrlExample | src/functions/sendToTelegram.ts:50-56 | the documented call posts to `https://api.telegram.org/bot123456:ABC-DEF/sendMessage` |
| Send.Wrap | src/functions/sendToTelegram.ts:95-99 | a non-API failure becomes a transport error, named `TelegramTransportError`: `Failed to send message to Telegram: ` then the error's message (or `String` of the thrown value), with the thrown value as cause only when it is an `Error` |
| Send.SendFailure | src/functions/sendToTelegram.ts:77-100 | no failure iff the status is 200..299; an API error with that status and body iff the status is not ok and the body was read; a throw from `fetch` or from reading the body is wrapped by `Wrap` with that thrown value; every failure is one of the transport's two named error classes |
| Send.SendToTelegram | src/functions/sendToTelegram.ts:61-101 | an unrenderable time fails with the unwrapped RangeError and sends nothing; otherwise the request has the specified URL, `chat_id`, rendered `text`, `parse_mode`, and `message_thread_id` exactly when a thread id was given, and the failure is the classification of the response |
| Send.ApiFailureMessage | src/functions/sendToTelegram.ts:86-92 | a non-ok response's status and body reach the caller unchanged, in the API error's message |
| Send.NetworkErrorWrapped | src/functions/sendToTelegram.ts:95-99 | a thrown `Error("fetch failed")` becomes a transport error with that message after the prefix, and with the original as cause |
| Send.ThrownStringWrapped | src/functions/sendToTelegram.ts:95-99 | a thrown string is coerced into the message and leaves no cause |
| Transport.ValidationError | src/TelegramTransport.ts:57-63 | construction succeeds iff both the bot token and the chat id are present and not all whitespace; a bad token is reported first, and a bad chat id only when the token is good |
| Transport.OrDefault | src/TelegramTransport.ts:71 | JavaScript's `or` default for an optional string: the fallback replaces an absent or empty value, and any other value is kept |
| Transport.ApiUrlSetting | src/TelegramTransport.ts:67 | the API base is the trimmed option, or `DEFAULT_API_URL` when the option is absent or trims to empty |
| Transport.ConfigFor | src/TelegramTransport.ts:66-68 | the reported chat id is the trimmed option, and the reported level is the option's name or `DEFAULT_LEVEL`'s |
| Transport.ThreadFor | src/TelegramTransport.ts:106-107 | a thread id is chosen iff the record has its own level and the mapping has an entry for that level's name, and then it is that entry |
| Transport.TelegramTransport.constructor | src/TelegramTransport.ts:65-75 | the stored token and chat id are the trimmed inputs; the API base, level, parse mode and timestamp flag take their defaults; the lists and thread mapping are kept; the stored token and chat id are trimmed and non-empty, and the API base is the default or a trimmed non-empty string |
| Transport.TelegramTransport.Create | src/TelegramTransport.ts:54-76 | `new TelegramTransport(options)` fails with exactly the validation error, and otherwise returns a fresh valid transport that stores the trimmed token and chat id, the API base setting, the level or `DEFAULT_LEVEL`, both lists, the parse mode or its default, the timestamp flag (default off) and the thread table, and whose configuration is the one the options determine |
| Transport.TelegramTransport.GetConfig | src/TelegramTransport.ts:143-155 | the configuration holds the chat id, the level's name, the parse mode and the API base; on a constructed transport its chat id is non-empty and already trimmed |
| Transport.TelegramTransport.Write | src/TelegramTransport.ts:87-135 | a parsed `null` emits a TypeError; a record is dropped, with no request and no error, iff the filter refuses it; otherwise it is rendered and posted with the thread id for its level, and ends delivered or with the emitted failure; every request sent carries `ThreadFor` of the record's level |
| Transport.ConfigOmitsToken | src/TelegramTransport.ts:143-155 | two transports that differ only in their bot token report the same configuration |
| Transport.ApiUrlExamples | src/TelegramTransport.ts:67 | an absent or blank `apiUrl` gives the default base; a padded one gives its trimmed text |
| Transport.TokenCheckedFirst | src/TelegramTransport.ts:57-63 | a blank token is refused whatever the chat id; a good token with an empty chat id is refused for the chat id |
| Transport.MissingLevelHasNoThread | src/TelegramTransport.ts:106-107 | a record without `level` is filtered as if at the default level, yet is never routed to a thread |
| Transport.ThreadRoutingExample | examples/thread-ids-example.js:35-40 | with threads for info, warn, error and fatal, levels 30..60 go to 123, 456, 789, 999, while trace, debug and level-less records get no thread |
| Transport.ErrorRecordRoutedEndToEnd | examples/thread-ids-example.js:14-39 | a transport built with the example's thread table at minimum level info never drops an error record, and any request it sends for it carries thread 789 |
| Transport.WriteErrorRecord | src/TelegramTransport.ts:95-123 | on a transport at minimum level info with the example's thread table, an error record passes the filter and is posted to thread 789 |
| Transport.ZeroThreadIsAttached | src/TelegramTransport.ts:107 | a mapped thread id of 0 is still attached, since only an absent entry is skipped |

## Left out

- `onlyLevels`, `excludeLevels` and `threadIds` are stored by reference in the source, so a caller that mutates them after construction changes later filtering and routing. The model stores them as values copied at construction and does not model that aliasing.
- Network I/O: `fetch` and `response.text()` are one function from the request to an outcome. Headers, the `POST` method, and the JSON encoding of the payload are not modelled. The payload is kept as a record whose `message_thread_id` is absent or present.
- Stream and async plumbing is not modelled: the `Writable` base, `objectMode`, the callback, promise chaining, and `emit`. `Write` returns how the record ends: dropped, delivered, or reported with the emitted error. It does not capture when the callback runs relative to the network call.
- `Date.now()` is the single value `Runtime.now`. A record that reaches `formatMessage` without a `time` is stamped with that same value; in the source that is a separate, later call whose reading may differ.
- `JSON.parse`, `JSON.stringify`, `toISOString` and the decimal text of a number are runtime parameters. `JSON.stringify` throwing (on a cycle, or a BigInt) is not modelled.
- Strings are sequences of Unicode scalar values. JavaScript lengths count UTF-16 code units, so a message with characters outside the Basic Multilingual Plane is cut at a different place than in the source.
- Strings.ToUpper: models `toUpperCase` on ASCII letters only. Other letters are left unchanged, which matches the source only for the six level names it is applied to.
- Numbers are unbounded reals. NaN, the infinities and `-0` are not modelled.
- A record's `level` is a number or absent, and its `msg` a string or absent, as the record interface types them. A non-numeric `level` or a non-string `msg` taken from arbitrary JSON is not modelled.
- Objects are their own enumerable properties. Inherited and non-enumerable properties are not modelled: for example an `Error` instance passed in object mode, whose `message` and `stack` `in` finds but `Object.keys` does not list. So are a custom `toString` and getters.
- The fallback `LOG_LEVELS[minLevelName] ?? DEFAULT_LOG_LEVEL_VALUE` (src/functions/shouldSendLog.ts:69) is not modelled. Options are typed with the six level names, so the lookup always succeeds.
- Errors: the stack capture and the `name` property are not modelled, beyond the class names. The same goes for the unused `cause` parameter of `TelegramApiError`.
- Transport.ConfigFor: states the chat id and level fields. The parse mode and API base fields follow `OrDefault` and `ApiUrlSetting`, whose own contracts state them.
- The factory `createTelegramTransport`, the re-export files and the usage scripts are not modelled. The type and constant files are used only for the data types.
