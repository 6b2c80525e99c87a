/** What every Telegram method descriptor shares: the request record that
    `request()` returns, the endpoint URL built from the bot token, the
    reading of the call's first positional argument and the `json` body that
    `send()` builds from it. The HTTP execution that consumes the record is
    not part of this model, and neither is TypeCaster: its `castValues` and
    `stripArrays` are passed in as functions about which nothing is assumed. */
module TelegramMethod {
  import opened Wrappers
  import opened Php

  /** Every endpoint URL starts with this text, followed by the bot token. */
  const ApiBase: string := "https://api.telegram.org/bot"

  /** A parameter schema: field name to the type tag TypeCaster casts it to. */
  type Schema = map<string, string>

  /** The record `request()` returns: the keys `type`, `url`, `send` and `expect` (the last one named `expected` here). */
  datatype HttpRequest = HttpRequest(verb: string, url: string, send: map<string, Value>, expected: string)

  /** The endpoint URL of `operation` for the bot `token`: the token is
      interpolated verbatim between the API base and the operation name. */
  function Url(token: string, operation: string): (url: string)
    ensures |url| == |ApiBase| + |token| + 1 + |operation|
    ensures url[..|ApiBase|] == ApiBase
    ensures url[|ApiBase|..|ApiBase| + |token|] == token
    ensures url[|ApiBase| + |token|..] == "/" + operation
  {
    ApiBase + token + "/" + operation
  }

  /** Reads the bot token back out of an endpoint URL of `operation`, or None
      when `url` is not such a URL. */
  function TokenOf(url: string, operation: string): Option<string>
  {
    var suffix := "/" + operation;
    if |ApiBase| + |suffix| <= |url| && url[..|ApiBase|] == ApiBase && url[|url| - |suffix|..] == suffix
    then Some(url[|ApiBase|..|url| - |suffix|])
    else None
  }

  /** The URL of an operation carries its token and nothing else: reading the
      token back gives exactly the token it was built from, and every URL the
      reader accepts is the URL of the token it reads. */
  lemma UrlTokenRoundTrip(token: string, operation: string, url: string)
    ensures TokenOf(Url(token, operation), operation) == Some(token)
    ensures TokenOf(url, operation) == Some(token) ==> Url(token, operation) == url
  {
    var suffix := "/" + operation;
    var u := Url(token, operation);
    assert u == ApiBase + token + suffix;
    assert u[..|ApiBase|] == ApiBase;
    assert u[|u| - |suffix|..] == suffix;
    assert u[|ApiBase|..|u| - |suffix|] == token;
    if TokenOf(url, operation) == Some(token) {
      assert url == url[..|ApiBase|] + url[|ApiBase|..|url| - |suffix|] + url[|url| - |suffix|..];
    }
  }

  /** Two bots with different tokens never share an endpoint URL. */
  lemma UrlInjective(token1: string, token2: string, operation: string)
    requires Url(token1, operation) == Url(token2, operation)
    ensures token1 == token2
  {
    UrlTokenRoundTrip(token1, operation, Url(token1, operation));
    UrlTokenRoundTrip(token2, operation, Url(token2, operation));
  }

  /** `$this->arguments[0] ?? []`: the first positional argument of the call,
      with the empty array standing in for a missing or null one; the result
      is never null. */
  function FirstArgument(arguments: seq<Value>): (first: Value)
    ensures first != Null
    ensures |arguments| > 0 && arguments[0] != Null ==> first == arguments[0]
    ensures first == EmptyArray || (|arguments| > 0 && first == arguments[0])
  {
    if |arguments| > 0 && arguments[0] != Null then arguments[0] else EmptyArray
  }

  /** `send()`: a one-key array whose `json` entry is the first argument,
      cast against the operation's parameter schema and stripped. */
  function JsonBody(arguments: seq<Value>, parameters: Schema,
                    castValues: (Value, Schema) -> Value, stripArrays: Value -> Value)
    : (body: map<string, Value>)
    ensures body.Keys == {"json"}
    ensures body["json"] == stripArrays(castValues(FirstArgument(arguments), parameters))
  {
    map["json" := stripArrays(castValues(FirstArgument(arguments), parameters))]
  }

  /** `request()`: a POST to the operation's endpoint for `token`, carrying
      `body` and announcing the `expected` result kind. */
  function PostRequest(token: string, operation: string, body: map<string, Value>, expected: string)
    : (r: HttpRequest)
    ensures r.verb == "POST"
    ensures r.url == ApiBase + token + "/" + operation
    ensures TokenOf(r.url, operation) == Some(token)
    ensures r.send == body && r.expected == expected
  {
    UrlTokenRoundTrip(token, operation, Url(token, operation));
    HttpRequest("POST", Url(token, operation), body, expected)
  }

  /** A call without arguments, or with a null first argument, sends exactly
      what a call with an explicit empty array sends; arguments after the
      first never reach the body. */
  lemma FirstArgumentOnly(arguments: seq<Value>, parameters: Schema,
                          castValues: (Value, Schema) -> Value, stripArrays: Value -> Value)
    ensures JsonBody([], parameters, castValues, stripArrays) == JsonBody([EmptyArray], parameters, castValues, stripArrays)
    ensures JsonBody([Null], parameters, castValues, stripArrays) == JsonBody([EmptyArray], parameters, castValues, stripArrays)
    ensures |arguments| > 0 ==>
      JsonBody(arguments, parameters, castValues, stripArrays) == JsonBody(arguments[..1], parameters, castValues, stripArrays)
  {
  }

  /** Requests of two bots for the same operation and body are equal exactly
      when their tokens are: the token reaches the request only through the
      URL, and the URL keeps it whole. */
  lemma RequestDeterminesToken(token1: string, token2: string, operation: string,
                               body: map<string, Value>, expected: string)
    ensures PostRequest(token1, operation, body, expected) == PostRequest(token2, operation, body, expected)
            <==> token1 == token2
  {
    if PostRequest(token1, operation, body, expected) == PostRequest(token2, operation, body, expected) {
      UrlInjective(token1, token2, operation);
    }
  }
}
