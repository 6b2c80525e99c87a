# TeleBot controller and method descriptors in Dafny

This project models the core of the PHP Telegram bot client `WeStacks\TeleBot`:

- the bot controller `Bot` (module `TeleBot`, file `bot.dfy`);
- two Telegram method descriptors, `exportChatInviteLink` and `leaveChat`
  (modules `ExportChatInviteLinkMethod` and `LeaveChatMethod`, with the pieces
  they share in `TelegramMethod`).

The controller is a class whose fields are those the PHP object updates in
place: the token, the two configured defaults, the handler list and the two
one-shot overrides. The PHP constructor can throw, so it becomes the
module-level method `NewBot`, which returns a `Result`. That method reads the
configuration with `Normalize`, builds the object and adds the configured
handlers with `Bot.AddHandler`.

`__call` becomes `Bot.Call`. It looks the name up in the fixed eleven-entry
registry `Methods`. It does not start the HTTP call. It returns the
`Execution` it would hand to `execute`: the method class, the token, the
arguments and the two policy flags. Each flag is the armed override if there
is one, else the configured default. On a registered name both overrides are
disarmed. An unknown name throws `methodNotFound` before that reset, so armed
overrides survive it (`UnknownNameKeepsOverrides`).

`addHandler` becomes two mutually recursive methods. `Bot.AddHandler` handles
one value and `Bot.AddEach` is its `foreach` over an array. They are proved
against the flattening `Leaves`: they append the longest valid prefix
(`ValidPrefix`) of the depth-first leaves, and they return the
`wrongHandlerType` error of the first invalid leaf (`FirstInvalid`).

`handleUpdate` becomes `Bot.HandleUpdate`. Its loop is proved equal to the
fan-out function `Dispatch`. It returns the success flag and the trace of
handlers run, in order.

The PHP runtime's own questions are given to the controller as a `Runtime`
value:

- `is_callable`;
- `class_exists` together with `is_subclass_of(..., UpdateHandler)`;
- a handler class's static `trigger`.

The body of the inbound webhook request is a parameter: `None` when it does
not decode.

The two descriptors are pure functions of the token and the call arguments.
The two PHP files are the same template, so `TelegramMethod` builds the body
(`JsonBody`) and the request (`PostRequest`) once, and each descriptor module
supplies its operation name, parameter schema and expected result kind.
TypeCaster's `castValues` and `stripArrays` are not part of this model. They
are passed in as function parameters, and nothing is assumed about them. The
URL lemmas show that each request URL carries its token verbatim and can be
read back (`UrlTokenRoundTrip`).

Neither `exportChatInviteLink` nor `leaveChat` is in the registry of
src/Bot.php:185-197. A call of either name through the controller therefore
throws `methodNotFound` (the contract of `Methods`). The same holds for `getStickerSet`,
which tests/Feature/StickersTest.php:24 calls.

## Model

| member | source | states |
|---|---|---|
| `TeleBot.Normalize` | src/Bot.php:58-64 | A string configuration is the token. Any other non-array configuration, and any array without a token, yields `configKeyIsRequired('token', Bot)`. The error policy defaults to raising, the async policy to blocking, the handlers to none. |
| `TeleBot.NewBot` | src/Bot.php:56-68 | Construction fails exactly when the configuration or a configured handler is rejected, with that error. Otherwise it yields a fresh, valid controller with the normalised token and defaults, no armed overrides, and exactly the flattened configured handlers in order. |
| `TeleBot.Bot.constructor` | src/Bot.php:62-65 | The property assignments: token, both defaults, empty handler list, overrides unarmed. |
| `TeleBot.Lookup` | src/Bot.php:80-81 | A name resolves exactly when it is registered. Any other name yields `methodNotFound` carrying that name. |
| `TeleBot.Methods` | src/Bot.php:183-198 | The fixed registry. `getMe` and `sendMessage`, which the tests call and expect to resolve, are registered. `getYou`, `getStickerSet`, `exportChatInviteLink` and `leaveChat` have no entry. |
| `TeleBot.Bot.Call` | src/Bot.php:78-92 | An unknown name throws `methodNotFound` and changes nothing, armed overrides included. A registered name yields its class, the token, the arguments, and each flag as the armed override or else the default. Both overrides are then disarmed. Only the two override fields may change. |
| `TeleBot.Bot.Async` | src/Bot.php:99-103 | Arms only the async override, with the given value (default true), and returns the same instance. |
| `TeleBot.Bot.Exceptions` | src/Bot.php:110-114 | Arms only the error-policy override, with the given value (default true), and returns the same instance. |
| `TeleBot.IsUpdateHandler` | src/Bot.php:137-141 | A handler is valid exactly when it is callable or a string naming an existing `UpdateHandler` subclass: both kinds are valid, and a valid handler that is not callable is such a string. A non-string is valid exactly when it is callable. |
| `TeleBot.Describe` | src/Bot.php:132 | The `wrongHandlerType` argument: a string is given as itself, an object as `object`, any other value as its type name. |
| `TeleBot.Leaves` | src/Bot.php:124-128 | A single value is its own only leaf. The leaves of an array are exactly the leaves of its items. |
| `TeleBot.LeavesOf` | src/Bot.php:126-127 | A handler is a leaf of an array's items exactly when it is a leaf of one of them. |
| `TeleBot.Bot.AddHandler` | src/Bot.php:122-135 | Appends the depth-first leaves up to the first invalid one, keeps existing handlers in place, and keeps every handler valid. It returns `wrongHandlerType` of the first invalid leaf, or nothing when all leaves are valid. |
| `TeleBot.Bot.AddEach` | src/Bot.php:124-129 | Adding an array's items in turn appends the valid prefix of their concatenated leaves and stops at the first error. |
| `TeleBot.ValidPrefix` | src/Bot.php:131-134 | The leaves appended are a prefix of the input and all valid. If the prefix stops early, it stops at an invalid leaf. |
| `TeleBot.FirstInvalid` | src/Bot.php:131-132 | No error exactly when every leaf is valid. Otherwise the error is `wrongHandlerType` naming the first invalid leaf (the string itself, or its type), and every leaf before it is valid. |
| `TeleBot.LeavesOfConcat` | src/Bot.php:124-128 | Flattening an array is flattening its parts in order. |
| `TeleBot.ValidPrefixConcat` | src/Bot.php:124-135 | Registering `a + b` appends all of `a` and then what `b` appends when `a` is valid, and only what `a` appends otherwise. |
| `TeleBot.FirstInvalidConcat` | src/Bot.php:124-135 | The error of `a + b` is the error of `a` if `a` has an invalid leaf, else the error of `b`. |
| `TeleBot.ValidPrefixAll` | src/Bot.php:134 | A fully valid input is appended whole. |
| `TeleBot.AddItemStep` | src/Bot.php:126-127 | One array item either extends the valid run or fixes where the whole array stops and which error it throws. |
| `TeleBot.ValidUpdate` | src/Bot.php:167-177 | A given update is used as is. Otherwise the webhook body is used exactly when it decodes to an array with a non-null `update_id`. |
| `TeleBot.Step` | src/Bot.php:154-161 | One handler runs at most once. A callable is always called with the update. A non-callable runs exactly when it is a class name whose `trigger` accepts the update, and then it runs as that class. |
| `TeleBot.Dispatch` | src/Bot.php:152-162 | The trace is no longer than the handler list. |
| `TeleBot.DispatchAt` | src/Bot.php:152-162 | Each registered handler contributes exactly its own step, so at most one invocation, after those of the handlers before it and before those of the handlers after it. |
| `TeleBot.DispatchConcat` | src/Bot.php:152-162 | Handlers run in registration order: those registered earlier run before those registered later. |
| `TeleBot.DispatchRuns` | src/Bot.php:152-162 | A callable runs exactly when it is registered. A handler class runs exactly when it is registered, is not callable itself, and its `trigger` accepts the update. Every match runs, not only the first. |
| `TeleBot.Bot.HandleUpdate` | src/Bot.php:148-165 | Succeeds exactly when an update is available (given or from the webhook). It then runs the registered handlers in registration order, as `Dispatch` describes. Otherwise it fails and runs nothing. |
| `TeleBot.ChainedOverrides` | tests/Feature/SendMessageTest.php:36-52 | Chained `async(true)` and `exceptions(false)` reach exactly the next call. A following plain call uses the defaults again. |
| `TeleBot.UnknownNameKeepsOverrides` | tests/Feature/SendMessageTest.php:24-28 | Calling `getYou` throws `methodNotFound`. An override armed before it still reaches the next registered call. |
| `TelegramMethod.Url` | src/Methods/ExportChatInviteLinkMethod.php:14 | The URL is the API base, then the token verbatim, then `/` and the operation name, each at its fixed position. |
| `TelegramMethod.UrlTokenRoundTrip` | src/Methods/ExportChatInviteLinkMethod.php:14 | The token read back from an endpoint URL is the token it was built from. Every URL the reader accepts is the URL of the token it reads. |
| `TelegramMethod.UrlInjective` | src/Methods/LeaveChatMethod.php:14 | Different tokens never share an endpoint URL. |
| `TelegramMethod.FirstArgument` | src/Methods/LeaveChatMethod.php:26 | `$this->arguments[0] ?? []` is never null. It is the first argument when that is present and not null, and the empty array otherwise. |
| `TelegramMethod.JsonBody` | src/Methods/LeaveChatMethod.php:20-29 | The body has the single key `json`. Its value is `stripArrays(castValues(first argument or [], schema))`. |
| `TelegramMethod.PostRequest` | src/Methods/LeaveChatMethod.php:10-18 | A `POST` to the API base, the token, `/` and the operation, from which the token reads back, carrying the given body and expected kind. |
| `TelegramMethod.FirstArgumentOnly` | src/Methods/ExportChatInviteLinkMethod.php:26 | No argument, or a null one, sends what an explicit `[]` sends. Arguments after the first are ignored. |
| `TelegramMethod.RequestDeterminesToken` | src/Methods/ExportChatInviteLinkMethod.php:12-17 | Two requests for the same operation and body are equal exactly when their tokens are. |
| `ExportChatInviteLinkMethod.Send` | src/Methods/ExportChatInviteLinkMethod.php:20-29 | The body has the single key `json`. Its value is `stripArrays(castValues(first argument or [], {chat_id: string}))`. |
| `ExportChatInviteLinkMethod.Request` | src/Methods/ExportChatInviteLinkMethod.php:10-18 | A `POST` to the API base, the token and `/exportChatInviteLink`, from which the token reads back. It carries the `send()` body and expects a `string`. |
| `LeaveChatMethod.Send` | src/Methods/LeaveChatMethod.php:20-29 | The body has the single key `json`. Its value is `stripArrays(castValues(first argument or [], {chat_id: string}))`. |
| `LeaveChatMethod.Request` | src/Methods/LeaveChatMethod.php:10-18 | A `POST` to the API base, the token and `/leaveChat`, from which the token reads back. It carries the `send()` body and expects a `boolean`. |

## Left out

- `TelegramMethod::execute` is not modelled: the HTTP call, Guzzle promises, the response envelope and the exception policy it applies. `Bot.Call` stops at the arguments it would pass to `execute`.
- TypeCaster is not part of this model. `castValues` and `stripArrays` are function parameters, and nothing is stated about coercion or field dropping.
- Reading and decoding the webhook body (`file_get_contents('php://input')`, `json_decode`) is left out. The decoded body is a parameter.
- Building an `Update` object from the body (`new Update($data)`) is not modelled. The update is the array it is built from.
- PHP reflection (`is_callable`, `class_exists`, `is_subclass_of`), a handler class's `trigger`, and `new $class` are given answers in `Runtime`. The model records which handler runs but not what its closure or `handle()` does.
- `Bot.HandleUpdate` and `Dispatch` assume that every handler, every `trigger` and every `handle()` returns normally. In PHP the `foreach` has no `try`, so a throwing handler or trigger stops the fan-out: later handlers do not run and the exception propagates out of `handleUpdate` instead of `true` being returned. The model does not capture that stop.
- `Runtime` is fixed for a controller's lifetime. The model does not capture PHP answering `is_callable` differently at registration and at dispatch.
- PHP arrays are maps from string keys. An integer key is written as its decimal string, which PHP itself treats as the same key. Entry order is not kept. This matters only inside TypeCaster, which is left out.
- PHP floats have no case in the value type. The core never inspects a value beyond telling null and arrays apart.
- `Normalize`: the model narrows the configuration values. The token must be a string, `exceptions` and `async` must be booleans, and a non-array `handlers` entry must be a handler value. PHP accepts any non-null value and passes it on unchanged.
- The `@method` documentation block of src/Bot.php (lines 26-42) describes the return types of `execute`, which is left out.
- src/Objects/InlineQueryResult/InlineQueryResultCachedDocument.php is only a constant field-to-type table with no behaviour, and is not part of this model.
