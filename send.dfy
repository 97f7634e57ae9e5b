/**
 * `sendToTelegram`: renders the record, builds the `sendMessage` request
 * (URL and JSON payload), hands it to the network and classifies what comes
 * back into the transport's errors.
 */
module Send {
  import opened Js
  import opened LogRecords
  import opened Format
  import opened Errors

  /** The JSON body sent to `sendMessage`; `message_thread_id` is omitted when None. */
  datatype Payload = Payload(chat_id: string, text: string, parse_mode: string, message_thread_id: Option<int>)

  /** A `POST` of a payload to a URL. */
  datatype Request = Request(url: string, payload: Payload)

  /** What `response.text()` gives: the body, or what it threw. */
  datatype BodyRead = BodyText(text: string) | BodyThrew(thrown: Thrown)

  /**
   * What `fetch` gives: a response with its status and its body as read
   * (the body is read only when the status is not ok), or what it threw.
   */
  datatype FetchOutcome = Responded(status: nat, body: BodyRead) | FetchThrew(thrown: Thrown)

  /** The options `_write` passes to `sendToTelegram`. */
  datatype SendOptions = SendOptions(
    log: LogEntry,
    botToken: string,
    chatId: string,
    parseMode: string,
    apiUrl: string,
    includeTimestamp: bool,
    messageThreadId: Option<int>)

  const WRAP_PREFIX: string := "Failed to send message to Telegram: "

  /** `${apiUrl}/bot${botToken}/sendMessage`, read back piece by piece. */
  function RequestUrl(apiUrl: string, botToken: string): (url: string)
    ensures |url| == |apiUrl| + 4 + |botToken| + 12
    ensures url[..|apiUrl|] == apiUrl
    ensures url[|apiUrl|..|apiUrl| + 4] == "/bot"
    ensures url[|apiUrl| + 4..|apiUrl| + 4 + |botToken|] == botToken
    ensures url[|apiUrl| + 4 + |botToken|..] == "/sendMessage"
  {
    apiUrl + "/bot" + botToken + "/sendMessage"
  }

  /** For a given API base, different tokens give different URLs. */
  lemma RequestUrlInjective(apiUrl: string, t1: string, t2: string)
    requires RequestUrl(apiUrl, t1) == RequestUrl(apiUrl, t2)
    ensures t1 == t2
  {
  }

  /** `response.ok`: a status in 200..299. */
  predicate Ok(status: nat) {
    200 <= status <= 299
  }

  /** `error instanceof Error ? error.message : String(error)`. */
  function ThrownText(e: Thrown, rt: Runtime): string {
    match e
    case ErrorInstance(message) => message
    case NonError(v) => ToJsString(v, rt.numberText)
  }

  /** The `TelegramTransportError` a failure other than an API error becomes; an `Error` is kept as its cause. */
  function Wrap(e: Thrown, rt: Runtime): (f: Failure)
    ensures f.TransportFailure? && ErrorName(f) == Some("TelegramTransportError")
    ensures |WRAP_PREFIX| <= |f.message| && f.message[..|WRAP_PREFIX|] == WRAP_PREFIX
    ensures f.message[|WRAP_PREFIX|..] == ThrownText(e, rt)
    ensures f.cause.Some? <==> e.ErrorInstance?
    ensures f.cause.Some? ==> f.cause.value == e
  {
    TransportFailure(WRAP_PREFIX + ThrownText(e, rt), if e.ErrorInstance? then Some(e) else None)
  }

  /**
   * The outcome of the `try` block around `fetch`: an ok response succeeds; a
   * non-ok one whose body could be read fails with a `TelegramApiError`
   * carrying status and body, passed on unchanged; everything else is wrapped.
   */
  function SendFailure(outcome: FetchOutcome, rt: Runtime): (r: Option<Failure>)
    ensures r.None? <==> outcome.Responded? && Ok(outcome.status)
    ensures (r.Some? && r.value.ApiFailure?) <==> outcome.Responded? && !Ok(outcome.status) && outcome.body.BodyText?
    ensures r.Some? && r.value.ApiFailure? ==>
      r.value.statusCode == outcome.status && r.value.responseText == outcome.body.text
    ensures r.Some? && !r.value.ApiFailure? ==>
      r.value.TransportFailure? && |WRAP_PREFIX| <= |r.value.message|
      && r.value.message[..|WRAP_PREFIX|] == WRAP_PREFIX
    ensures r.Some? ==> ErrorName(r.value).Some?
    ensures outcome.FetchThrew? ==> r == Some(Wrap(outcome.thrown, rt))
    ensures outcome.Responded? && !Ok(outcome.status) && outcome.body.BodyThrew? ==>
      r == Some(Wrap(outcome.body.thrown, rt))
  {
    match outcome
    case Responded(status, body) =>
      if Ok(status) then None
      else (match body
        case BodyText(text) => Some(ApiFailure(status, text))
        case BodyThrew(e) => Some(Wrap(e, rt)))
    case FetchThrew(e) => Some(Wrap(e, rt))
  }

  /**
   * `sendToTelegram(options)`. `request` is what was handed to `fetch`, none
   * when rendering threw first; `failure` is what the returned promise
   * rejects with. A `RangeError` from the timestamp is thrown before the
   * `try` block and so is not wrapped.
   */
  method SendToTelegram(options: SendOptions, rt: Runtime, network: Request -> FetchOutcome)
    returns (request: Option<Request>, failure: Option<Failure>)
    ensures Formatted(options.log, options.includeTimestamp, rt).InvalidTime? ==>
      request.None? && failure == Some(RangeError)
    ensures Formatted(options.log, options.includeTimestamp, rt).Rendered? ==>
      && request.Some?
      && request.value.url == RequestUrl(options.apiUrl, options.botToken)
      && request.value.payload.chat_id == options.chatId
      && request.value.payload.text == Formatted(options.log, options.includeTimestamp, rt).text
      && request.value.payload.parse_mode == options.parseMode
      && request.value.payload.message_thread_id == options.messageThreadId
      && failure == SendFailure(network(request.value), rt)
  {
    var message := FormatMessage(options.log, options.includeTimestamp, rt);
    if message.InvalidTime? {
      return None, Some(RangeError);
    }
    var url := options.apiUrl + "/bot" + options.botToken + "/sendMessage";
    var payload := Payload(options.chatId, message.text, options.parseMode, None);
    if options.messageThreadId.Some? {
      payload := payload.(message_thread_id := Some(options.messageThreadId.value));
    }
    request := Some(Request(url, payload));
    var response := network(request.value);
    match response
    case Responded(status, body) =>
      if !Ok(status) {
        match body
        case BodyText(errorText) =>
          failure := Some(ApiFailure(status, errorText));
        case BodyThrew(e) =>
          failure := Some(Wrap(e, rt));
      } else {
        failure := None;
      }
    case FetchThrew(e) =>
      failure := Some(Wrap(e, rt));
  }

  /** An API error is passed on unchanged: its message is the status and body of the non-ok response. */
  lemma ApiFailureMessage(status: nat, text: string, rt: Runtime)
    requires !Ok(status)
    ensures SendFailure(Responded(status, BodyText(text)), rt) == Some(ApiFailure(status, text))
    ensures Message(SendFailure(Responded(status, BodyText(text)), rt).value) == Some(ApiErrorMessage(status, text))
  {
  }

  /** A network error such as `TypeError: fetch failed` becomes a transport error with that message after the prefix. */
  lemma NetworkErrorWrapped(rt: Runtime)
    ensures SendFailure(FetchThrew(ErrorInstance("fetch failed")), rt)
         == Some(TransportFailure("Failed to send message to Telegram: fetch failed", Some(ErrorInstance("fetch failed"))))
  {
    assert WRAP_PREFIX + "fetch failed" == "Failed to send message to Telegram: fetch failed";
  }

  /** A thrown string is coerced with `String` and leaves no cause. */
  lemma ThrownStringWrapped(s: string, rt: Runtime)
    ensures SendFailure(FetchThrew(NonError(Str(s))), rt) == Some(TransportFailure(WRAP_PREFIX + s, None))
  {
  }

  /** The documented example's URL. */
  lemma RequestUrlExample()
    ensures RequestUrl("https://api.telegram.org", "123456:ABC-DEF")
         == "https://api.telegram.org/bot123456:ABC-DEF/sendMessage"
  {
  }
}
