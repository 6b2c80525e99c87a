/** The bot controller: it holds the token, the default error and async
    policies and the registered update handlers; it turns a call by name into
    the execution of a registered Telegram method, with one-shot overrides of
    the two policies; and it fans an incoming update out to the handlers.

    What PHP decides at run time about handler values (`is_callable`,
    `class_exists` with `is_subclass_of`, a handler class's static `trigger`)
    is given to the controller as a `Runtime`. The HTTP execution of a method
    is not modelled: a call ends with the `Execution` it would start. */
module TeleBot {
  import opened Wrappers
  import opened Php

  /** `self::class` of the controller, named in the missing-token error. */
  const BotClass: string := "WeStacks\\TeleBot\\Bot"

  /** The namespace of the method classes in the registry. */
  const MethodsNamespace: string := "WeStacks\\TeleBot\\Methods\\"

  /** A Telegram update, as the array it is built from. */
  type Update = map<string, Value>

  /** A single handler value. */
  datatype Handler =
    | Name(s: string)             // a string: a function name or an UpdateHandler class name
    | Closure(id: nat)            // a closure or another object
    | Other(typeName: string)     // any other value, known by its `gettype()`

  /** What `addHandler` accepts: one handler value, or an array of them,
      nested to any depth. */
  datatype HandlerInput = Single(handler: Handler) | Many(items: seq<HandlerInput>)

  /** The PHP runtime's answers about handler values. */
  datatype Runtime = Runtime(
    isCallable: Handler -> bool,          // `is_callable`
    isHandlerClass: string -> bool,       // `class_exists` and a subclass of `UpdateHandler`
    trigger: (string, Update) -> bool)    // the handler class's static `trigger`

  /** The exceptions the controller throws. */
  datatype BotError =
    | ConfigKeyIsRequired(key: string, owner: string)
    | MethodNotFound(name: string)
    | WrongHandlerType(given: string)

  /** The constructor's argument. An array configuration keeps only the keys
      the controller reads; None stands for a missing or null entry. */
  datatype Config =
    | StringConfig(s: string)
    | ArrayConfig(token: Option<string>, exceptions: Option<bool>, async: Option<bool>, handlers: Option<HandlerInput>)
    | OtherConfig

  /** The configuration once defaults are filled in. */
  datatype Settings = Settings(token: string, exceptions: bool, async: bool, handlers: HandlerInput)

  /** What `__call` hands to the method's `execute`: the method class, the
      constructor's token and arguments, and the two policy flags. */
  datatype Execution = Execution(methodClass: string, token: string, arguments: seq<Value>, exceptions: bool, async: bool)

  /** One handler run for an update: a callable called with the update, or
      an UpdateHandler class instantiated and its `handle()` run. */
  datatype Invocation = Called(handler: Handler) | Handled(handlerClass: string)

  // ---------------------------------------------------------------- configuration

  /** The constructor's reading of its configuration: a string is the token,
      anything that is neither a string nor an array counts as an empty array,
      the token is required, and the error policy defaults to raising, the
      async policy to blocking and the handler list to empty. */
  function Normalize(config: Config): (r: Result<Settings, BotError>)
    ensures r.Success? <==> config.StringConfig? || (config.ArrayConfig? && config.token.Some?)
    ensures r.Failure? ==> r.error == ConfigKeyIsRequired("token", BotClass)
    ensures config.StringConfig? ==> r == Success(Settings(config.s, true, false, Many([])))
    ensures config.ArrayConfig? && r.Success? ==>
      && r.value.token == config.token.value
      && r.value.exceptions == (config.exceptions != Some(false))
      && r.value.async == (config.async == Some(true))
      && (config.handlers.Some? ==> r.value.handlers == config.handlers.value)
      && (config.handlers.None? ==> Leaves(r.value.handlers) == [])
  {
    var normal := match config
      case StringConfig(s) => ArrayConfig(Some(s), None, None, None)
      case ArrayConfig(_, _, _, _) => config
      case OtherConfig => ArrayConfig(None, None, None, None);
    if normal.token.None? then Failure(ConfigKeyIsRequired("token", BotClass))
    else Success(Settings(normal.token.value, normal.exceptions.GetOr(true), normal.async.GetOr(false),
                          normal.handlers.GetOr(Many([]))))
  }

  // ---------------------------------------------------------------- method registry

  /** The fixed registry of `__call`: method name to method class. The
      names the library's tests call and expect to resolve are in it; names used
      elsewhere in the library or its tests without an entry are not, so
      calling them throws `methodNotFound`. */
  function Methods(): (registry: map<string, string>)
    ensures "getMe" in registry && "sendMessage" in registry
    ensures "getYou" !in registry && "getStickerSet" !in registry
    ensures "exportChatInviteLink" !in registry && "leaveChat" !in registry
  {
    map[
      "deleteWebhook"  := MethodsNamespace + "DeleteWebhookMethod",
      "forwardMessage" := MethodsNamespace + "ForwardMessageMethod",
      "getMe"          := MethodsNamespace + "GetMeMethod",
      "getUpdates"     := MethodsNamespace + "GetUpdatesMethod",
      "getWebhookInfo" := MethodsNamespace + "GetWebhookInfoMethod",
      "sendAudio"      := MethodsNamespace + "SendAudioMethod",
      "sendDocument"   := MethodsNamespace + "SendDocumentMethod",
      "sendMessage"    := MethodsNamespace + "SendMessageMethod",
      "sendPhoto"      := MethodsNamespace + "SendPhotoMethod",
      "sendVideo"      := MethodsNamespace + "SendVideoMethod",
      "setWebhook"     := MethodsNamespace + "SetWebhookMethod"
    ]
  }

  /** The registry lookup of `__call`: the method class of a registered name,
      `methodNotFound` for any other. */
  function Lookup(name: string): (r: Result<string, BotError>)
    ensures r.Success? <==> name in Methods()
    ensures r.Success? ==> r.value == Methods()[name]
    ensures r.Failure? ==> r.error == MethodNotFound(name)
  {
    if name in Methods() then Success(Methods()[name]) else Failure(MethodNotFound(name))
  }

  // ---------------------------------------------------------------- handler registration

  /** `isUpdateHandler`: a callable, or the name of an existing subclass of
      `UpdateHandler`. A valid handler that is not callable is therefore a
      class name, and only a string can be accepted without being callable. */
  predicate IsUpdateHandler(rt: Runtime, h: Handler): (valid: bool)
    ensures rt.isCallable(h) ==> valid
    ensures valid && !rt.isCallable(h) ==> h.Name? && rt.isHandlerClass(h.s)
    ensures h.Name? && rt.isHandlerClass(h.s) ==> valid
    ensures !h.Name? ==> (valid <==> rt.isCallable(h))
  {
    rt.isCallable(h) || (h.Name? && rt.isHandlerClass(h.s))
  }

  predicate AllHandlers(rt: Runtime, hs: seq<Handler>)
  {
    forall i :: 0 <= i < |hs| ==> IsUpdateHandler(rt, hs[i])
  }

  /** How `wrongHandlerType` names a rejected value: a string by itself,
      anything else by its type, which for an object is `object`. */
  function Describe(h: Handler): (given: string)
    ensures h.Name? ==> given == h.s
    ensures h.Closure? ==> given == "object"
    ensures h.Other? ==> given == h.typeName
  {
    match h
    case Name(s) => s
    case Closure(_) => "object"
    case Other(typeName) => typeName
  }

  /** The handler values of an input, depth first, in array order: a single
      value is its own only leaf, and an array has exactly the leaves of its
      items. */
  function Leaves(input: HandlerInput): (leaves: seq<Handler>)
    ensures input.Single? ==> leaves == [input.handler]
    ensures input.Many? ==> forall h :: h in leaves <==> exists i :: 0 <= i < |input.items| && h in Leaves(input.items[i])
    decreases input, 1
  {
    match input
    case Single(h) => [h]
    case Many(items) => LeavesOf(items)
  }

  /** The leaves of an array's items, one item after another. */
  function LeavesOf(items: seq<HandlerInput>): (leaves: seq<Handler>)
    ensures forall h :: h in leaves <==> exists i :: 0 <= i < |items| && h in Leaves(items[i])
    decreases items, 0
  {
    if items == [] then [] else Leaves(items[0]) + LeavesOf(items[1..])
  }

  /** The leaves `addHandler` appends before it stops: the longest prefix of
      valid handlers. */
  function ValidPrefix(rt: Runtime, leaves: seq<Handler>): (r: seq<Handler>)
    ensures |r| <= |leaves| && r == leaves[..|r|]
    ensures AllHandlers(rt, r)
    ensures |r| < |leaves| ==> !IsUpdateHandler(rt, leaves[|r|])
  {
    if leaves == [] || !IsUpdateHandler(rt, leaves[0]) then []
    else [leaves[0]] + ValidPrefix(rt, leaves[1..])
  }

  /** The exception `addHandler` throws, if any: `wrongHandlerType` for the
      first leaf that is not a valid handler. */
  function FirstInvalid(rt: Runtime, leaves: seq<Handler>): (err: Option<BotError>)
    ensures err.None? <==> AllHandlers(rt, leaves)
    ensures err.Some? ==> exists i :: 0 <= i < |leaves| && AllHandlers(rt, leaves[..i])
                                   && !IsUpdateHandler(rt, leaves[i])
                                   && err.value == WrongHandlerType(Describe(leaves[i]))
  {
    var n := |ValidPrefix(rt, leaves)|;
    if n == |leaves| then None
    else
      assert AllHandlers(rt, leaves[..n]);
      Some(WrongHandlerType(Describe(leaves[n])))
  }

  /** Flattening distributes over array concatenation. */
  lemma {:induction false} LeavesOfConcat(a: seq<HandlerInput>, b: seq<HandlerInput>)
    ensures LeavesOf(a + b) == LeavesOf(a) + LeavesOf(b)
  {
    if a == [] {
      assert a + b == b;
    } else {
      assert (a + b)[1..] == a[1..] + b;
      LeavesOfConcat(a[1..], b);
    }
  }

  /** Registering `a` then `b` appends what registering `a + b` appends:
      all of `a` and then the valid prefix of `b` when `a` is valid
      throughout, and only the valid prefix of `a` otherwise. */
  lemma {:induction false} ValidPrefixConcat(rt: Runtime, a: seq<Handler>, b: seq<Handler>)
    ensures AllHandlers(rt, a) ==> ValidPrefix(rt, a + b) == a + ValidPrefix(rt, b)
    ensures !AllHandlers(rt, a) ==> ValidPrefix(rt, a + b) == ValidPrefix(rt, a)
  {
    if a == [] {
      assert a + b == b;
    } else {
      assert (a + b)[0] == a[0];
      assert (a + b)[1..] == a[1..] + b;
      ValidPrefixConcat(rt, a[1..], b);
      if IsUpdateHandler(rt, a[0]) {
        assert AllHandlers(rt, a) <==> AllHandlers(rt, a[1..]) by {
          if AllHandlers(rt, a[1..]) {
            forall i | 0 <= i < |a| ensures IsUpdateHandler(rt, a[i]) {
              if i > 0 { assert a[i] == a[1..][i - 1]; }
            }
          }
        }
      }
    }
  }

  /** The error of registering `a + b` is that of `a` when `a` holds an
      invalid leaf, and that of `b` otherwise. */
  lemma FirstInvalidConcat(rt: Runtime, a: seq<Handler>, b: seq<Handler>)
    ensures AllHandlers(rt, a) ==> FirstInvalid(rt, a + b) == FirstInvalid(rt, b)
    ensures !AllHandlers(rt, a) ==> FirstInvalid(rt, a + b) == FirstInvalid(rt, a)
  {
    ValidPrefixConcat(rt, a, b);
    if !AllHandlers(rt, a) {
      var n := |ValidPrefix(rt, a)|;
      assert n < |a|;
      assert (a + b)[n] == a[n];
    } else {
      var m := |ValidPrefix(rt, b)|;
      if m < |b| {
        assert (a + b)[|a| + m] == b[m];
      }
    }
  }

  /** A valid sequence of leaves is appended whole. */
  lemma ValidPrefixAll(rt: Runtime, leaves: seq<Handler>)
    requires AllHandlers(rt, leaves)
    ensures ValidPrefix(rt, leaves) == leaves
  {
    ValidPrefixConcat(rt, leaves, []);
    assert leaves + [] == leaves;
  }

  /** One step of `addHandler` over an array: after the items before `i`
      were appended whole, adding item `i` either appends it whole too or
      stops the whole array exactly where that item stops. */
  lemma AddItemStep(rt: Runtime, items: seq<HandlerInput>, i: nat)
    requires i < |items| && AllHandlers(rt, LeavesOf(items[..i]))
    ensures FirstInvalid(rt, Leaves(items[i])).None? ==>
      && AllHandlers(rt, LeavesOf(items[..i + 1]))
      && LeavesOf(items[..i + 1]) == LeavesOf(items[..i]) + ValidPrefix(rt, Leaves(items[i]))
    ensures FirstInvalid(rt, Leaves(items[i])).Some? ==>
      && ValidPrefix(rt, LeavesOf(items)) == LeavesOf(items[..i]) + ValidPrefix(rt, Leaves(items[i]))
      && FirstInvalid(rt, LeavesOf(items)) == FirstInvalid(rt, Leaves(items[i]))
  {
    var done, item := LeavesOf(items[..i]), Leaves(items[i]);
    assert items[..i + 1] == items[..i] + [items[i]];
    LeavesOfConcat(items[..i], [items[i]]);
    assert LeavesOf([items[i]]) == item by {
      assert [items[i]][1..] == [];
      assert item + [] == item;
    }
    var rest := LeavesOf(items[i + 1..]);
    assert items == items[..i + 1] + items[i + 1..];
    LeavesOfConcat(items[..i + 1], items[i + 1..]);
    assert LeavesOf(items) == done + (item + rest);
    if AllHandlers(rt, item) {
      ValidPrefixAll(rt, item);
      ValidPrefixConcat(rt, done, item);
      ValidPrefixAll(rt, done + item);
    } else {
      ValidPrefixConcat(rt, done, item + rest);
      ValidPrefixConcat(rt, item, rest);
      FirstInvalidConcat(rt, done, item + rest);
      FirstInvalidConcat(rt, item, rest);
    }
  }

  /** Appending in two steps appends the concatenation: a proof aid for
      the loop of `AddEach`, not a property of the library. */
  lemma AppendTwice<T>(s: seq<T>, a: seq<T>, b: seq<T>)
    ensures (s + a) + b == s + (a + b)
  {
  }

  // ---------------------------------------------------------------- update dispatch

  /** `validUpdate`: the update given, or else the decoded webhook body when
      it is an array holding a non-null `update_id`; None means the update is
      rejected. `body` is None when the inbound body does not decode. */
  function ValidUpdate(update: Option<Update>, body: Option<Value>): (r: Option<Update>)
    ensures update.Some? ==> r == update
    ensures update.None? ==>
      (r.Some? <==> body.Some? && body.value.Arr? && "update_id" in body.value.entries
                    && body.value.entries["update_id"] != Null)
    ensures update.None? && r.Some? ==> r == Some(body.value.entries)
  {
    if update.Some? then update
    else if body.None? then None
    else match body.value
      case Arr(data) => if "update_id" in data && data["update_id"] != Null then Some(data) else None
      case _ => None
  }

  /** What one registered handler does with an update: a callable always
      runs, called with the update; any other handler runs, as the class it
      names, exactly when its `trigger` accepts the update. */
  function Step(rt: Runtime, h: Handler, u: Update): (ran: seq<Invocation>)
    ensures |ran| <= 1
    ensures rt.isCallable(h) ==> ran == [Called(h)]
    ensures !rt.isCallable(h) ==> (ran != [] <==> h.Name? && rt.trigger(h.s, u))
    ensures !rt.isCallable(h) && ran != [] ==> ran == [Handled(h.s)]
  {
    if rt.isCallable(h) then [Called(h)]
    else if h.Name? && rt.trigger(h.s, u) then [Handled(h.s)]
    else []
  }

  /** The handlers run for an update, in registration order. */
  function Dispatch(rt: Runtime, hs: seq<Handler>, u: Update): (trace: seq<Invocation>)
    ensures |trace| <= |hs|
  {
    if hs == [] then [] else Step(rt, hs[0], u) + Dispatch(rt, hs[1..], u)
  }

  /** Each registered handler contributes exactly its own `Step`, so at most
      one invocation, at its own position in the trace: after what the
      handlers before it ran and before what the handlers after it run. */
  lemma {:induction false} DispatchAt(rt: Runtime, hs: seq<Handler>, i: nat, u: Update)
    requires i < |hs|
    ensures Dispatch(rt, hs, u) == Dispatch(rt, hs[..i], u) + Step(rt, hs[i], u) + Dispatch(rt, hs[i+1..], u)
    ensures |Step(rt, hs[i], u)| <= 1
  {
    assert hs == hs[..i] + hs[i..];
    DispatchConcat(rt, hs[..i], hs[i..], u);
    assert hs[i..][0] == hs[i];
    assert hs[i..][1..] == hs[i+1..];
  }

  /** Dispatch respects registration order: the handlers registered first run
      first, those registered later run after them. */
  lemma {:induction false} DispatchConcat(rt: Runtime, a: seq<Handler>, b: seq<Handler>, u: Update)
    ensures Dispatch(rt, a + b, u) == Dispatch(rt, a, u) + Dispatch(rt, b, u)
  {
    if a == [] {
      assert a + b == b;
    } else {
      assert (a + b)[0] == a[0];
      assert (a + b)[1..] == a[1..] + b;
      DispatchConcat(rt, a[1..], b, u);
    }
  }

  /** Fan-out, not first match: a callable runs exactly when it is
      registered, and a handler class exactly when it is registered, is not
      itself callable and its `trigger` accepts the update. */
  lemma {:induction false} DispatchRuns(rt: Runtime, hs: seq<Handler>, u: Update, h: Handler, c: string)
    ensures Called(h) in Dispatch(rt, hs, u) <==> h in hs && rt.isCallable(h)
    ensures Handled(c) in Dispatch(rt, hs, u) <==> Name(c) in hs && !rt.isCallable(Name(c)) && rt.trigger(c, u)
  {
    if hs != [] {
      DispatchRuns(rt, hs[1..], u, h, c);
      assert hs == [hs[0]] + hs[1..];
      assert forall x :: x in hs <==> x == hs[0] || x in hs[1..];
    }
  }

  // ---------------------------------------------------------------- the controller

  class Bot {
    var token: string
    var defaultExceptions: bool
    var defaultAsync: bool
    var handlers: seq<Handler>
    /** One-shot overrides armed by `Async` and `Exceptions`; None when unarmed. */
    var asyncOverride: Option<bool>
    var exceptionsOverride: Option<bool>
    const rt: Runtime

    /** Every registered handler passed `isUpdateHandler`. */
    ghost predicate Valid()
      reads this
    {
      AllHandlers(rt, handlers)
    }

    /** The property assignments of the PHP constructor, before its handlers
        are added. */
    constructor (token: string, exceptions: bool, async: bool, rt: Runtime)
      ensures Valid() && this.rt == rt
      ensures this.token == token && defaultExceptions == exceptions && defaultAsync == async
      ensures handlers == [] && asyncOverride == None && exceptionsOverride == None
    {
      this.token := token;
      defaultExceptions := exceptions;
      defaultAsync := async;
      handlers := [];
      asyncOverride := None;
      exceptionsOverride := None;
      this.rt := rt;
    }

    /** `__call`: an unknown name throws and leaves every field as it was,
        armed overrides included. A registered name yields the execution of
        its method class with the armed overrides in place of the defaults,
        and disarms both overrides. */
    method Call(name: string, arguments: seq<Value>) returns (r: Result<Execution, BotError>)
      modifies this`asyncOverride, this`exceptionsOverride
      ensures name !in Methods() ==> r == Failure(MethodNotFound(name))
      ensures name !in Methods() ==>
        asyncOverride == old(asyncOverride) && exceptionsOverride == old(exceptionsOverride)
      ensures name in Methods() ==>
        r == Success(Execution(Methods()[name], token, arguments,
                               old(exceptionsOverride).GetOr(defaultExceptions),
                               old(asyncOverride).GetOr(defaultAsync)))
      ensures name in Methods() ==> asyncOverride == None && exceptionsOverride == None
    {
      var methodClass := Lookup(name);
      if methodClass.Failure? {
        return Failure(methodClass.error);
      }
      var exceptions := exceptionsOverride.GetOr(defaultExceptions);
      var async := asyncOverride.GetOr(defaultAsync);
      exceptionsOverride := None;
      asyncOverride := None;
      r := Success(Execution(methodClass.value, token, arguments, exceptions, async));
    }

    /** `async`: arms the async override for the next call only. */
    method Async(async: bool := true) returns (self: Bot)
      modifies this`asyncOverride
      ensures self == this && asyncOverride == Some(async)
    {
      asyncOverride := Some(async);
      self := this;
    }

    /** `exceptions`: arms the error-policy override for the next call only. */
    method Exceptions(exceptions: bool := true) returns (self: Bot)
      modifies this`exceptionsOverride
      ensures self == this && exceptionsOverride == Some(exceptions)
    {
      exceptionsOverride := Some(exceptions);
      self := this;
    }

    /** `addHandler`: appends the leaves of `input` depth first up to the
        first one that is not a valid handler, and returns that leaf's
        `wrongHandlerType` error; handlers already registered stay in place. */
    method AddHandler(input: HandlerInput) returns (err: Option<BotError>)
      requires Valid()
      modifies this`handlers
      ensures Valid()
      ensures handlers == old(handlers) + ValidPrefix(rt, Leaves(input))
      ensures err == FirstInvalid(rt, Leaves(input))
      decreases input, 1
    {
      match input
      case Single(h) =>
        if !IsUpdateHandler(rt, h) {
          return Some(WrongHandlerType(Describe(h)));
        }
        handlers := handlers + [h];
        err := None;
      case Many(items) =>
        err := AddEach(items);
    }

    /** The `foreach` of `addHandler` over an array: each item in turn, until
        one of them throws. */
    method AddEach(items: seq<HandlerInput>) returns (err: Option<BotError>)
      requires Valid()
      modifies this`handlers
      ensures Valid()
      ensures handlers == old(handlers) + ValidPrefix(rt, LeavesOf(items))
      ensures err == FirstInvalid(rt, LeavesOf(items))
      decreases items, 0
    {
      var i := 0;
      while i < |items|
        invariant 0 <= i <= |items|
        invariant Valid()
        invariant AllHandlers(rt, LeavesOf(items[..i]))
        invariant handlers == old(handlers) + LeavesOf(items[..i])
      {
        ghost var done := LeavesOf(items[..i]);
        err := AddHandler(items[i]);
        AddItemStep(rt, items, i);
        AppendTwice(old(handlers), done, ValidPrefix(rt, Leaves(items[i])));
        if err.Some? {
          return;
        }
        i := i + 1;
      }
      assert items[..i] == items;
      ValidPrefixAll(rt, LeavesOf(items));
      err := None;
    }

    /** `handleUpdate`: with an update (given, or read from the webhook body)
        every registered handler is visited in registration order and the
        call succeeds; with none, nothing runs and the call fails. Every
        handler and `trigger` is taken to return normally: a PHP exception
        thrown by one of them is not modelled. */
    method HandleUpdate(update: Option<Update>, body: Option<Value>) returns (handled: bool, trace: seq<Invocation>)
      requires Valid()
      ensures handled <==> ValidUpdate(update, body).Some?
      ensures handled ==> trace == Dispatch(rt, handlers, ValidUpdate(update, body).value)
      ensures !handled ==> trace == []
    {
      var u := ValidUpdate(update, body);
      if u.None? {
        return false, [];
      }
      trace := [];
      for i := 0 to |handlers|
        invariant trace == Dispatch(rt, handlers[..i], u.value)
      {
        var h := handlers[i];
        assert handlers[..i + 1] == handlers[..i] + [h];
        DispatchConcat(rt, handlers[..i], [h], u.value);
        if rt.isCallable(h) {
          trace := trace + [Called(h)];
          continue;
        }
        if rt.trigger(h.s, u.value) {
          trace := trace + [Handled(h.s)];
        }
      }
      assert handlers[..|handlers|] == handlers;
      handled := true;
    }
  }

  /** The constructor: reads the configuration, sets the properties and adds
      the configured handlers; a missing token or an invalid handler throws,
      and no controller comes out. */
  method NewBot(config: Config, rt: Runtime) returns (r: Result<Bot, BotError>)
    ensures Normalize(config).Failure? ==> r.Failure? && r.error == Normalize(config).error
    ensures Normalize(config).Success? ==>
      var s := Normalize(config).value;
      && (r.Failure? <==> FirstInvalid(rt, Leaves(s.handlers)).Some?)
      && (r.Failure? ==> Some(r.error) == FirstInvalid(rt, Leaves(s.handlers)))
      && (r.Success? ==>
            && fresh(r.value) && r.value.Valid() && r.value.rt == rt
            && r.value.token == s.token
            && r.value.defaultExceptions == s.exceptions && r.value.defaultAsync == s.async
            && r.value.handlers == Leaves(s.handlers)
            && r.value.asyncOverride == None && r.value.exceptionsOverride == None)
  {
    var settings := Normalize(config);
    if settings.Failure? {
      return Failure(settings.error);
    }
    var s := settings.value;
    var bot := new Bot(s.token, s.exceptions, s.async, rt);
    var err := bot.AddHandler(s.handlers);
    if err.Some? {
      return Failure(err.value);
    }
    ValidPrefixConcat(rt, Leaves(s.handlers), []);
    assert Leaves(s.handlers) + [] == Leaves(s.handlers);
    r := Success(bot);
  }

  // ---------------------------------------------------------------- client scenarios

  /** Two calls with overrides armed by chaining, then a plain one: each
      override reaches exactly the call after it. */
  method ChainedOverrides(bot: Bot, first: seq<Value>, second: seq<Value>)
    returns (r1: Result<Execution, BotError>, r2: Result<Execution, BotError>, r3: Result<Execution, BotError>)
    requires bot.asyncOverride == None && bot.exceptionsOverride == None
    modifies bot`asyncOverride, bot`exceptionsOverride
    ensures r1.Success? && r1.value.async && r1.value.exceptions == bot.defaultExceptions
    ensures r2.Success? && r2.value.async && !r2.value.exceptions
    ensures r3.Success? && r3.value.async == bot.defaultAsync && r3.value.exceptions == bot.defaultExceptions
    ensures bot.asyncOverride == None && bot.exceptionsOverride == None
  {
    var b := bot.Async(true);
    r1 := b.Call("sendMessage", first);
    b := bot.Async(true);
    b := b.Exceptions(false);
    r2 := b.Call("sendMessage", second);
    r3 := bot.Call("sendMessage", second);
  }

  /** A call to an unknown name throws before the overrides are consumed, so
      they still reach the next registered call. */
  method UnknownNameKeepsOverrides(bot: Bot, arguments: seq<Value>)
    returns (r1: Result<Execution, BotError>, r2: Result<Execution, BotError>)
    modifies bot`asyncOverride, bot`exceptionsOverride
    ensures r1 == Failure(MethodNotFound("getYou"))
    ensures r2.Success? && r2.value.async && r2.value.methodClass == MethodsNamespace + "GetMeMethod"
  {
    var b := bot.Async();
    r1 := b.Call("getYou", arguments);
    r2 := b.Call("getMe", arguments);
  }
}
