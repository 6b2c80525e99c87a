/** The descriptor of the Telegram operation `leaveChat`: `request()` and
    `send()` build a fixed request record from the bot token and the call's
    arguments. */
module LeaveChatMethod {
  import opened Wrappers
  import opened Php
  import opened TelegramMethod

  /** The operation name, the last segment of the endpoint URL. */
  const Operation: string := "leaveChat"

  /** The parameter schema `send()` casts the first argument against. */
  const Parameters: Schema := map["chat_id" := "string"]

  /** `send()`: the request body, a one-key array whose `json` entry is the
      cast and stripped first argument (the empty array when it is missing). */
  function Send(arguments: seq<Value>, castValues: (Value, Schema) -> Value, stripArrays: Value -> Value)
    : (body: map<string, Value>)
    ensures body.Keys == {"json"}
    ensures body["json"] == stripArrays(castValues(FirstArgument(arguments), Parameters))
  {
    JsonBody(arguments, Parameters, castValues, stripArrays)
  }

  /** `request()`: a POST to the operation's endpoint for `token`, with the
      body of `send()` and the expected result kind `boolean`. */
  function Request(token: string, arguments: seq<Value>, castValues: (Value, Schema) -> Value, stripArrays: Value -> Value)
    : (r: HttpRequest)
    ensures r.verb == "POST"
    ensures r.url == ApiBase + token + "/" + Operation
    ensures TokenOf(r.url, Operation) == Some(token)
    ensures r.send.Keys == {"json"}
    ensures r.send["json"] == stripArrays(castValues(FirstArgument(arguments), Parameters))
    ensures r.expected == "boolean"
  {
    PostRequest(token, Operation, Send(arguments, castValues, stripArrays), "boolean")
  }
}
