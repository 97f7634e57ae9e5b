/**
 * The failures a record can end in: the transport's two error classes
 * (`TelegramTransportError` and its subclass `TelegramApiError`), and the
 * runtime errors that reach the stream unwrapped.
 */
module Errors {
  import opened Js
  import opened Strings

  /** Something thrown by `fetch` or `response.text()`: an `Error` instance, or any other value. */
  datatype Thrown = ErrorInstance(message: string) | NonError(value: Value)

  /**
   * A failure reported on the stream's `'error'` event.
   * `TransportFailure` is a `TelegramTransportError` with its message and
   * optional cause; `ApiFailure` is a `TelegramApiError` with the HTTP status
   * and the response body; `RangeError` is what `toISOString` throws for an
   * invalid time; `TypeError` is what reading a property of `null` throws.
   */
  datatype Failure =
    | TransportFailure(message: string, cause: Option<Thrown>)
    | ApiFailure(statusCode: nat, responseText: string)
    | RangeError
    | TypeError

  const API_ERROR_PREFIX: string := "Telegram API error: "

  /** `Telegram API error: ${statusCode} ${responseText}`. */
  function ApiErrorMessage(statusCode: nat, responseText: string): (m: string)
    ensures |API_ERROR_PREFIX| <= |m| && m[..|API_ERROR_PREFIX|] == API_ERROR_PREFIX
    ensures |responseText| < |m| && m[|m| - |responseText|..] == responseText
    ensures |API_ERROR_PREFIX| + |NatToDecimal(statusCode)| + 1 + |responseText| == |m|
    ensures m[|API_ERROR_PREFIX|..|m| - |responseText|] == NatToDecimal(statusCode) + " "
  {
    API_ERROR_PREFIX + NatToDecimal(statusCode) + " " + responseText
  }

  /** The `name` of the transport's own error classes. */
  function ErrorName(f: Failure): (n: Option<string>)
    ensures f.TransportFailure? <==> n == Some("TelegramTransportError")
    ensures f.ApiFailure? <==> n == Some("TelegramApiError")
    ensures n.Some? <==> f.TransportFailure? || f.ApiFailure?
  {
    match f
    case TransportFailure(_, _) => Some("TelegramTransportError")
    case ApiFailure(_, _) => Some("TelegramApiError")
    case _ => None
  }

  /**
   * The message of a failure of the transport's own classes. An API error's
   * message is composed from its status and body.
   */
  function Message(f: Failure): (m: Option<string>)
    ensures m.Some? <==> f.TransportFailure? || f.ApiFailure?
    ensures f.TransportFailure? ==> m == Some(f.message)
    ensures f.ApiFailure? ==> m == Some(ApiErrorMessage(f.statusCode, f.responseText))
  {
    match f
    case TransportFailure(message, _) => Some(message)
    case ApiFailure(statusCode, responseText) => Some(ApiErrorMessage(statusCode, responseText))
    case _ => None
  }

  /**
   * The message of an API error determines both its status and its body:
   * the decimal status has no spaces, so the first space after the prefix
   * ends it.
   */
  lemma ApiErrorMessageInjective(s1: nat, t1: string, s2: nat, t2: string)
    requires ApiErrorMessage(s1, t1) == ApiErrorMessage(s2, t2)
    ensures s1 == s2 && t1 == t2
  {
    var d1, d2 := NatToDecimal(s1), NatToDecimal(s2);
    var r1, r2 := d1 + " " + t1, d2 + " " + t2;
    var p := API_ERROR_PREFIX;
    assert p + r1 == ApiErrorMessage(s1, t1) by { ConcatAssoc3(p, d1, " ", t1); }
    assert p + r2 == ApiErrorMessage(s2, t2) by { ConcatAssoc3(p, d2, " ", t2); }
    assert r1 == r2 by {
      assert (p + r1)[|p|..] == r1;
      assert (p + r2)[|p|..] == r2;
    }
    assert |d1| < |d2| ==> r1[|d1|] == ' ' && IsDigit(r2[|d1|]);
    assert |d2| < |d1| ==> r2[|d2|] == ' ' && IsDigit(r1[|d2|]);
    assert d1 == r1[..|d1|] && d2 == r2[..|d2|];
    assert t1 == r1[|d1| + 1..] && t2 == r2[|d2| + 1..];
  }

  lemma ConcatAssoc3(a: string, b: string, c: string, d: string)
    ensures a + b + c + d == a + (b + c + d)
  {
  }

  /** A 400 with body "Bad Request" reads "Telegram API error: 400 Bad Request". */
  lemma ApiErrorMessageExample()
    ensures ApiErrorMessage(400, "Bad Request") == "Telegram API error: 400 Bad Request"
  {
    assert NatToDecimal(400) == "400" by {
      assert NatToDecimal(4) == "4";
      assert NatToDecimal(40) == "40";
    }
  }
}
