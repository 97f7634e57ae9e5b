/**
 * `TelegramTransport`: the constructor's validation and defaults, the
 * per-record decision of `_write` (drop, or send and to which thread), and
 * `getConfig`.
 */
module Transport {
  import opened Js
  import opened Strings
  import opened Levels
  import opened LogRecords
  import opened Filter
  import opened Format
  import opened Errors
  import opened Send

  /** `DEFAULT_PARSE_MODE`. Its value is defined outside this model. */
  const DEFAULT_PARSE_MODE: string

  /** `DEFAULT_API_URL`. Its value is defined outside this model. */
  const DEFAULT_API_URL: string

  const BOT_TOKEN_REQUIRED: string := "botToken is required and cannot be empty"
  const CHAT_ID_REQUIRED: string := "chatId is required and cannot be empty"

  /** The options object; an absent key is None. `threadIds` maps level names to forum thread ids. */
  datatype Options = Options(
    botToken: Option<string>,
    chatId: Option<string>,
    level: Option<LogLevel>,
    onlyLevels: Option<seq<LogLevel>>,
    excludeLevels: Option<seq<LogLevel>>,
    parseMode: Option<string>,
    includeTimestamp: Option<bool>,
    apiUrl: Option<string>,
    threadIds: Option<map<LogLevel, int>>)

  /** `!s?.trim()`: the option is absent or holds only whitespace. */
  predicate Blank(s: Option<string>) {
    s.None? || Trim(s.value) == ""
  }

  /**
   * The error the constructor throws, if any: `botToken` is checked first,
   * then `chatId`, each failing when absent or whitespace only.
   */
  function ValidationError(options: Options): (r: Option<Failure>)
    ensures r.None? <==>
      && options.botToken.Some? && !AllWhitespace(options.botToken.value)
      && options.chatId.Some? && !AllWhitespace(options.chatId.value)
    ensures (options.botToken.None? || AllWhitespace(options.botToken.value)) ==>
      r == Some(TransportFailure(BOT_TOKEN_REQUIRED, None))
    ensures (&& options.botToken.Some? && !AllWhitespace(options.botToken.value)
             && (options.chatId.None? || AllWhitespace(options.chatId.value))) ==>
      r == Some(TransportFailure(CHAT_ID_REQUIRED, None))
  {
    if Blank(options.botToken) then Some(TransportFailure(BOT_TOKEN_REQUIRED, None))
    else if Blank(options.chatId) then Some(TransportFailure(CHAT_ID_REQUIRED, None))
    else None
  }

  /** `s || fallback` for an optional string: the fallback replaces an absent or empty one. */
  function OrDefault(s: Option<string>, fallback: string): (r: string)
    ensures s.None? || s.value == "" ==> r == fallback
    ensures s.Some? && s.value != "" ==> r == s.value
  {
    if s.Some? && s.value != "" then s.value else fallback
  }

  /** `options.apiUrl?.trim() || DEFAULT_API_URL`. */
  function ApiUrlSetting(apiUrl: Option<string>): (r: string)
    ensures Blank(apiUrl) ==> r == DEFAULT_API_URL
    ensures !Blank(apiUrl) ==> r == Trim(apiUrl.value) && r != ""
  {
    OrDefault(if apiUrl.Some? then Some(Trim(apiUrl.value)) else None, DEFAULT_API_URL)
  }

  /** What `getConfig` returns. It has no field for the bot token. */
  datatype Config = Config(chatId: string, level: string, parseMode: string, apiUrl: string)

  /** The configuration a transport built from `options` reports. */
  function ConfigFor(options: Options): (c: Config)
    requires ValidationError(options).None?
    ensures c.chatId == Trim(options.chatId.value)
    ensures c.level == Name(options.level.GetOr(DEFAULT_LEVEL))
  {
    Config(Trim(options.chatId.value), Name(options.level.GetOr(DEFAULT_LEVEL)),
           OrDefault(options.parseMode, DEFAULT_PARSE_MODE), ApiUrlSetting(options.apiUrl))
  }

  /**
   * The thread a record is routed to: its level's entry in `threadIds`, but
   * only when the record has a `level` of its own.
   */
  function ThreadFor(level: Option<real>, threadIds: Option<map<LogLevel, int>>): (r: Option<int>)
    ensures r.Some? <==> level.Some? && threadIds.Some? && GetLevelName(level.value) in threadIds.value
    ensures r.Some? ==> r.value == threadIds.value[GetLevelName(level.value)]
  {
    if level.Some? && threadIds.Some? && GetLevelName(level.value) in threadIds.value
    then Some(threadIds.value[GetLevelName(level.value)])
    else None
  }

  /**
   * How `_write` ends: the record was dropped by the filter, or sent, or an
   * error was emitted (with the request that was sent, if one was). In every
   * case the callback is called exactly once.
   */
  datatype Completion = Dropped | Delivered(request: Request) | Reported(error: Failure, attempted: Option<Request>)

  class TelegramTransport {
    const botToken: string
    const chatId: string
    const apiUrl: string
    const level: LogLevel
    const onlyLevels: Option<seq<LogLevel>>
    const excludeLevels: Option<seq<LogLevel>>
    const parseMode: string
    const includeTimestamp: bool
    const threadIds: Option<map<LogLevel, int>>

    /** The settings every constructed transport holds: trimmed, non-blank credentials and a non-empty API base. */
    predicate Valid() {
      && botToken != [] && Trim(botToken) == botToken
      && chatId != [] && Trim(chatId) == chatId
      && (apiUrl == DEFAULT_API_URL || (apiUrl != [] && Trim(apiUrl) == apiUrl))
    }

    /** The assignments of a constructor whose validation passed. */
    constructor(options: Options)
      requires ValidationError(options).None?
      ensures botToken == Trim(options.botToken.value) && chatId == Trim(options.chatId.value)
      ensures apiUrl == ApiUrlSetting(options.apiUrl)
      ensures level == options.level.GetOr(DEFAULT_LEVEL)
      ensures onlyLevels == options.onlyLevels && excludeLevels == options.excludeLevels
      ensures parseMode == OrDefault(options.parseMode, DEFAULT_PARSE_MODE)
      ensures includeTimestamp == options.includeTimestamp.GetOr(false)
      ensures threadIds == options.threadIds
      ensures Valid()
      ensures GetConfig() == ConfigFor(options)
    {
      botToken := Trim(options.botToken.value);
      chatId := Trim(options.chatId.value);
      apiUrl := ApiUrlSetting(options.apiUrl);
      level := options.level.GetOr(DEFAULT_LEVEL);
      onlyLevels := options.onlyLevels;
      excludeLevels := options.excludeLevels;
      parseMode := OrDefault(options.parseMode, DEFAULT_PARSE_MODE);
      includeTimestamp := options.includeTimestamp.GetOr(false);
      threadIds := options.threadIds;
      new;
      TrimIdempotent(options.botToken.value);
      TrimIdempotent(options.chatId.value);
      if options.apiUrl.Some? {
        TrimIdempotent(options.apiUrl.value);
      }
    }

    /**
     * `new TelegramTransport(options)`: the transport, or the
     * `TelegramTransportError` the constructor throws.
     */
    static method Create(options: Options) returns (t: TelegramTransport?, error: Option<Failure>)
      ensures error == ValidationError(options)
      ensures t != null <==> error.None?
      ensures t != null ==> fresh(t) && t.Valid() && t.GetConfig() == ConfigFor(options)
      ensures t != null ==>
        && t.botToken == Trim(options.botToken.value) && t.chatId == Trim(options.chatId.value)
        && t.apiUrl == ApiUrlSetting(options.apiUrl)
        && t.level == options.level.GetOr(DEFAULT_LEVEL)
        && t.onlyLevels == options.onlyLevels && t.excludeLevels == options.excludeLevels
        && t.parseMode == OrDefault(options.parseMode, DEFAULT_PARSE_MODE)
        && t.includeTimestamp == options.includeTimestamp.GetOr(false)
        && t.threadIds == options.threadIds
    {
      if Blank(options.botToken) {
        return null, Some(TransportFailure(BOT_TOKEN_REQUIRED, None));
      }
      if Blank(options.chatId) {
        return null, Some(TransportFailure(CHAT_ID_REQUIRED, None));
      }
      t := new TelegramTransport(options);
      error := None;
    }

    /** `getConfig()`: chat, minimum level name, parse mode and API base. */
    function GetConfig(): (c: Config)
      ensures c.chatId == chatId && c.level == Name(level)
      ensures c.parseMode == parseMode && c.apiUrl == apiUrl
      ensures Valid() ==> c.chatId != [] && Trim(c.chatId) == c.chatId
    {
      Config(chatId, Name(level), parseMode, apiUrl)
    }

    /**
     * `_write(chunk)`. A `null` parsed from text makes the filter throw a
     * TypeError, which is emitted. A record the filter rejects is dropped with
     * no request and no error. Any other record is rendered and sent with its
     * thread id, and a failure to render or to send is emitted.
     */
    method Write(chunk: Chunk, rt: Runtime, network: Request -> FetchOutcome) returns (c: Completion)
      ensures ParseLog(chunk, rt).JsonNull? ==> c == Reported(TypeError, None)
      ensures ParseLog(chunk, rt).Entry? ==>
        var log := ParseLog(chunk, rt).log;
        && (c.Dropped? <==> !ShouldSendLog(log, Some(level), onlyLevels, excludeLevels))
        && (ShouldSendLog(log, Some(level), onlyLevels, excludeLevels) ==>
              match Formatted(log, includeTimestamp, rt)
              case InvalidTime => c == Reported(RangeError, None)
              case Rendered(text) =>
                var req := Request(RequestUrl(apiUrl, botToken),
                                   Payload(chatId, text, parseMode, ThreadFor(log.level, threadIds)));
                match SendFailure(network(req), rt)
                case None => c == Delivered(req)
                case Some(f) => c == Reported(f, Some(req)))
      ensures c.Delivered? ==>
        (&& ParseLog(chunk, rt).Entry?
         && c.request.payload.message_thread_id == ThreadFor(ParseLog(chunk, rt).log.level, threadIds))
      ensures c.Reported? && c.attempted.Some? ==>
        (&& ParseLog(chunk, rt).Entry?
         && c.attempted.value.payload.message_thread_id == ThreadFor(ParseLog(chunk, rt).log.level, threadIds))
    {
      var parsed := ParseLog(chunk, rt);
      if parsed.JsonNull? {
        return Reported(TypeError, None);
      }
      var log := parsed.log;
      if !ShouldSendLog(log, Some(level), onlyLevels, excludeLevels) {
        return Dropped;
      }
      var levelName := if log.level.Some? then Some(GetLevelName(log.level.value)) else None;
      var messageThreadId :=
        if levelName.Some? && threadIds.Some? && levelName.value in threadIds.value
        then Some(threadIds.value[levelName.value]) else None;
      var sendOptions := SendOptions(log, botToken, chatId, parseMode, apiUrl, includeTimestamp, None);
      if messageThreadId.Some? {
        sendOptions := sendOptions.(messageThreadId := Some(messageThreadId.value));
      }
      var request, failure := SendToTelegram(sendOptions, rt, network);
      match failure
      case None => c := Delivered(request.value);
      case Some(f) => c := Reported(f, request);
    }
  }

  /** The configuration never depends on the bot token: transports that differ only in it report the same. */
  lemma ConfigOmitsToken(options: Options, token: string)
    requires ValidationError(options).None?
    requires !AllWhitespace(token)
    ensures ValidationError(options.(botToken := Some(token))).None?
    ensures ConfigFor(options.(botToken := Some(token))) == ConfigFor(options)
  {
  }

  /** Without a usable `apiUrl` the default base is used; otherwise its trimmed text. */
  lemma ApiUrlExamples(url: string)
    requires url != [] && !IsWhitespace(url[0]) && !IsWhitespace(url[|url| - 1])
    ensures ApiUrlSetting(None) == DEFAULT_API_URL
    ensures ApiUrlSetting(Some(" \t ")) == DEFAULT_API_URL
    ensures ApiUrlSetting(Some(" " + url + "\n")) == url
  {
    assert AllWhitespace(" \t ");
    var s := " " + url + "\n";
    assert TrimStart(s) == s[1..] by {
      assert s[1..][0] == url[0];
    }
    assert TrimEnd(s[1..]) == url by {
      assert s[1..] == url + "\n";
      assert (url + "\n")[..|url|] == url;
    }
  }

  /** A blank token is refused before the chat id is looked at. */
  lemma TokenCheckedFirst(chatId: Option<string>)
    ensures ValidationError(Options(Some(" \t "), chatId, None, None, None, None, None, None, None))
         == Some(TransportFailure(BOT_TOKEN_REQUIRED, None))
    ensures ValidationError(Options(Some("123:abc"), Some(""), None, None, None, None, None, None, None))
         == Some(TransportFailure(CHAT_ID_REQUIRED, None))
  {
    assert AllWhitespace(" \t ");
    assert !AllWhitespace("123:abc") by { assert !IsWhitespace("123:abc"[0]); }
  }

  /**
   * A record without `level` passes the filter as if it had the default
   * level, yet is never routed to a thread, while a record at that level may be.
   */
  lemma MissingLevelHasNoThread(log: LogEntry, minLevelName: Option<LogLevel>, onlyLevels: Option<seq<LogLevel>>,
                                excludeLevels: Option<seq<LogLevel>>, threadIds: Option<map<LogLevel, int>>)
    requires log.level.None?
    ensures ShouldSendLog(log, minLevelName, onlyLevels, excludeLevels)
         == ShouldSendLog(log.(level := Some(DEFAULT_LOG_LEVEL_VALUE)), minLevelName, onlyLevels, excludeLevels)
    ensures ThreadFor(log.level, threadIds) == None
    ensures threadIds.Some? && GetLevelName(DEFAULT_LOG_LEVEL_VALUE) in threadIds.value ==>
      ThreadFor(Some(DEFAULT_LOG_LEVEL_VALUE), threadIds).Some?
  {
  }

  /** The routing table of the thread-ids example: info, warn, error and fatal have threads; trace and debug get no thread. */
  lemma ThreadRoutingExample()
    ensures var ids := Some(map[Info := 123, Warn := 456, Error := 789, Fatal := 999]);
      && ThreadFor(Some(10.0), ids) == None
      && ThreadFor(Some(20.0), ids) == None
      && ThreadFor(Some(30.0), ids) == Some(123)
      && ThreadFor(Some(40.0), ids) == Some(456)
      && ThreadFor(Some(50.0), ids) == Some(789)
      && ThreadFor(Some(60.0), ids) == Some(999)
      && ThreadFor(None, ids) == None
  {
  }

  /** A thread id of 0 is still attached: only an absent entry leaves the thread out. */
  lemma ZeroThreadIsAttached(l: LogLevel)
    ensures ThreadFor(Some(LogLevels(l)), Some(map[l := 0])) == Some(0)
  {
  }

  /** The example's thread table: info, warn, error and fatal have forum threads. */
  const EXAMPLE_THREADS: map<LogLevel, int> := map[Info := 123, Warn := 456, Error := 789, Fatal := 999]

  /**
   * The thread-ids usage end to end: a transport at minimum level info with
   * the example's thread table is built, and an error record written to it is
   * never dropped; whatever request is sent carries thread 789.
   */
  method ErrorRecordRoutedEndToEnd(token: string, chat: string, log: LogEntry, rt: Runtime,
                                   network: Request -> FetchOutcome)
    returns (c: Completion)
    requires !AllWhitespace(token) && !AllWhitespace(chat)
    requires log.level == Some(50.0)
    ensures !c.Dropped?
    ensures c.Delivered? ==> c.request.payload.message_thread_id == Some(789)
    ensures c.Reported? && c.attempted.Some? ==> c.attempted.value.payload.message_thread_id == Some(789)
  {
    var options := Options(Some(token), Some(chat), Some(Info), None, None, None, None, None, Some(EXAMPLE_THREADS));
    var t, error := TelegramTransport.Create(options);
    c := WriteErrorRecord(t, log, rt, network);
  }

  /** Writing an error record to a transport at minimum level info with the example's threads. */
  method WriteErrorRecord(t: TelegramTransport, log: LogEntry, rt: Runtime, network: Request -> FetchOutcome)
    returns (c: Completion)
    requires t.level == Info && t.onlyLevels == None && t.excludeLevels == None
    requires t.threadIds == Some(EXAMPLE_THREADS)
    requires log.level == Some(50.0)
    ensures !c.Dropped?
    ensures c.Delivered? ==> c.request.payload.message_thread_id == Some(789)
    ensures c.Reported? && c.attempted.Some? ==> c.attempted.value.payload.message_thread_id == Some(789)
  {
    assert ShouldSendLog(log, Some(Info), None, None);
    assert ThreadFor(log.level, t.threadIds) == Some(789) by {
      assert GetLevelName(50.0) == Error;
    }
    c := t.Write(Structured(log), rt, network);
  }
}
