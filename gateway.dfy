/** `src/lib/coinbase-commerce.ts`: the memoised, server-only initialisation of
    the payment SDK (module-level `Client`, `Charge`, `Webhook` and
    `isInitialized`), the three ways of locating the SDK classes in the loaded
    module, and the service wrappers around `Charge.create`,
    `Charge.retrieve` and `Webhook.verifyEventBody`.

    The SDK is an oracle: the loaded module is a finite tree of JavaScript
    values, and each SDK call is a parameter that says what the call does. */
module CoinbaseCommerce {
  import opened Common
  import JsonValue

  // ---------------------------------------------------------------------------
  // JavaScript values of the loaded module

  /** A JavaScript value as far as the class search sees it: `Falsy` stands
      for `false`, `0` and `""`, `Prim` for any truthy primitive. Functions
      and objects carry their own enumerable properties in key order; a
      value's keys are distinct, as they are for a JavaScript object. */
  datatype JsVal =
    | Undefined
    | Null
    | Falsy
    | Prim
    | Func(props: seq<Prop>)
    | Obj(props: seq<Prop>)

  datatype Prop = Prop(key: string, value: JsVal)

  /** `!!v`. */
  predicate Truthy(v: JsVal) {
    !(v.Undefined? || v.Null? || v.Falsy?)
  }

  /** `typeof v === "function"`. */
  predicate IsFunction(v: JsVal) {
    v.Func?
  }

  function PropValue(props: seq<Prop>, key: string): (r: JsVal)
    ensures r != Undefined ==> exists i :: 0 <= i < |props| && props[i] == Prop(key, r)
  {
    if props == [] then Undefined
    else if props[0].key == key then props[0].value
    else PropValue(props[1..], key)
  }

  /** `v[key]` on a value that is not `null` or `undefined`: the own property
      of an object or function, `undefined` for a primitive. */
  function Field(v: JsVal, key: string): JsVal {
    if v.Func? || v.Obj? then PropValue(v.props, key) else Undefined
  }

  // ---------------------------------------------------------------------------
  // findInObject

  /** `findInObject(obj, name)`: nothing unless `obj` is a non-null object;
      its own truthy property `name` if it has one; otherwise the first hit of
      a depth-first search over the object-valued properties, in key order. */
  function FindIn(v: JsVal, name: string): (r: JsVal)
    ensures r == Null || Truthy(r)
    decreases v, 1
  {
    if !v.Obj? then Null
    else if Truthy(Field(v, name)) then Field(v, name)
    else FindInKeys(v, 0, name)
  }

  /** The `for (const key of Object.keys(obj))` loop, from the i-th key on. */
  function FindInKeys(v: JsVal, i: nat, name: string): (r: JsVal)
    requires v.Obj? && i <= |v.props|
    ensures r == Null || Truthy(r)
    decreases v, 0, |v.props| - i
  {
    if i == |v.props| then Null
    else
      var child := v.props[i].value;
      var found := if child.Obj? then FindIn(child, name) else Null;
      if Truthy(found) then found else FindInKeys(v, i + 1, name)
  }

  /** Every truthy property `name` in the tree, in pre-order: the object's own
      property first, then the hits below each object-valued key in turn. */
  function Hits(v: JsVal, name: string): (r: seq<JsVal>)
    ensures forall i :: 0 <= i < |r| ==> Truthy(r[i])
    decreases v, 1
  {
    if !v.Obj? then []
    else (if Truthy(Field(v, name)) then [Field(v, name)] else []) + KeyHits(v, 0, name)
  }

  function KeyHits(v: JsVal, i: nat, name: string): (r: seq<JsVal>)
    requires v.Obj? && i <= |v.props|
    ensures forall k :: 0 <= k < |r| ==> Truthy(r[k])
    decreases v, 0, |v.props| - i
  {
    if i == |v.props| then []
    else
      var child := v.props[i].value;
      (if child.Obj? then Hits(child, name) else []) + KeyHits(v, i + 1, name)
  }

  /** The search returns the first hit of the pre-order walk, and `null`
      exactly when the tree holds no truthy property of that name. */
  lemma {:induction false} FindInIsFirstHit(v: JsVal, name: string)
    ensures FindIn(v, name) == if Hits(v, name) == [] then Null else Hits(v, name)[0]
    decreases v, 1
  {
    if v.Obj? && !Truthy(Field(v, name)) {
      FindInKeysIsFirstHit(v, 0, name);
    }
  }

  lemma {:induction false} FindInKeysIsFirstHit(v: JsVal, i: nat, name: string)
    requires v.Obj? && i <= |v.props|
    ensures FindInKeys(v, i, name) == if KeyHits(v, i, name) == [] then Null else KeyHits(v, i, name)[0]
    decreases v, 0, |v.props| - i
  {
    if i < |v.props| {
      var child := v.props[i].value;
      if child.Obj? {
        FindInIsFirstHit(child, name);
      }
      FindInKeysIsFirstHit(v, i + 1, name);
    }
  }

  // ---------------------------------------------------------------------------
  // Locating the classes

  datatype Classes = Classes(client: JsVal, charge: JsVal, webhook: JsVal)

  const NoClasses := Classes(Null, Null, Null)

  /** All three classes were found. */
  predicate Complete(c: Classes) {
    Truthy(c.client) && Truthy(c.charge) && Truthy(c.webhook)
  }

  /** `m.Client`, `m.Charge`, `m.Webhook`. */
  function Direct(m: JsVal): Classes {
    Classes(Field(m, "Client"), Field(m, "Charge"), Field(m, "Webhook"))
  }

  function Nested(m: JsVal): Classes {
    Classes(FindIn(m, "Client"), FindIn(m, "Charge"), FindIn(m, "Webhook"))
  }

  /** The three approaches, in order. Reading a property of a `null` or
      `undefined` module throws, which fails like finding nothing. */
  function Extract(m: JsVal): Classes {
    if m.Undefined? || m.Null? then NoClasses
    else if Complete(Direct(m)) then Direct(m)
    else if Truthy(Field(m, "default")) then
      (if Complete(Direct(Field(m, "default"))) then Direct(Field(m, "default")) else NoClasses)
    else if m.Func? || m.Obj? then Nested(m)
    else NoClasses
  }

  /** Direct properties win whenever all three are present. */
  lemma DirectWins(m: JsVal)
    requires Truthy(m) && Complete(Direct(m))
    ensures Extract(m) == Direct(m)
  {
  }

  /** When a default export exists and the direct properties are incomplete,
      only the default export is consulted: two modules with the same default
      export extract the same classes, however the rest of them differs. */
  lemma DefaultShadowsNested(m1: JsVal, m2: JsVal)
    requires Truthy(m1) && Truthy(m2)
    requires !Complete(Direct(m1)) && !Complete(Direct(m2))
    requires Truthy(Field(m1, "default")) && Field(m1, "default") == Field(m2, "default")
    ensures Extract(m1) == Extract(m2)
    ensures Complete(Extract(m1)) <==> Complete(Direct(Field(m1, "default")))
  {
  }

  /** Classes found by the extraction come from exactly one of the three
      approaches, and the nested search is used only without a default export. */
  lemma ExtractPrecedence(m: JsVal)
    requires Complete(Extract(m))
    ensures || (Truthy(m) && Complete(Direct(m)) && Extract(m) == Direct(m))
            || (!Complete(Direct(m)) && Truthy(Field(m, "default"))
                && Extract(m) == Direct(Field(m, "default")))
            || (!Complete(Direct(m)) && !Truthy(Field(m, "default")) && m.Obj?
                && Extract(m) == Nested(m))
  {
  }

  /** The nested search never enters a function (`typeof` is not "object"),
      so a module that is itself a function must carry the classes directly
      or under `default`. */
  lemma FunctionModuleNotSearched(props: seq<Prop>)
    requires !Complete(Direct(Func(props))) && !Truthy(Field(Func(props), "default"))
    ensures !Complete(Extract(Func(props)))
  {
  }

  // ---------------------------------------------------------------------------
  // initializeCoinbaseCommerce

  /** What `require("coinbase-commerce-node")` does. */
  datatype Loaded = LoadFailed | Module(exports: JsVal)

  /** The host facts the initialisation depends on: whether `window` is
      undefined, the API key (empty when unset), the module loader and
      whether `Client.init` throws when it is called. */
  datatype Env = Env(onServer: bool, apiKey: string, load: Loaded, initThrows: bool)

  datatype InitError = NotOnServer | MissingApiKey | InitFailed

  datatype InitResult = Initialized(classes: Classes) | InitThrew(error: InitError)

  /** The module-level variables. */
  datatype ModuleState = ModuleState(classes: Classes, isInitialized: bool)

  const Reset := ModuleState(NoClasses, false)

  /** The memo test `isInitialized && Client && Charge && Webhook`. */
  predicate Cached(s: ModuleState) {
    s.isInitialized && Complete(s.classes)
  }

  /** The module state is either a complete memo or fully reset. */
  predicate Valid(s: ModuleState) {
    Cached(s) || s == Reset
  }

  /** The body of the `try`: load, extract, then call `Client.init` when it is
      a function. */
  function Attempt(load: Loaded, initThrows: bool): (r: Option<Classes>)
    ensures r.Some? ==> Complete(r.value)
    ensures r.Some? <==> load.Module? && Complete(Extract(load.exports))
                         && !(IsFunction(Field(Extract(load.exports).client, "init")) && initThrows)
  {
    match load
    case LoadFailed => None
    case Module(m) =>
      var c := Extract(m);
      if !Complete(c) then None
      else if IsFunction(Field(c.client, "init")) && initThrows then None
      else Some(c)
  }

  /** One call of `initializeCoinbaseCommerce`: its result and the module
      state it leaves behind. */
  function InitStep(s: ModuleState, env: Env): (res: (InitResult, ModuleState))
    ensures Valid(s) ==> Valid(res.1)
    ensures res.0.Initialized? ==> Complete(res.0.classes) && res.1 == ModuleState(res.0.classes, true)
    ensures res.0 == InitThrew(InitFailed) ==> res.1 == Reset
    ensures res.0.InitThrew? && res.0.error != InitFailed ==> res.1 == s
  {
    if !env.onServer then (InitThrew(NotOnServer), s)
    else if Cached(s) then (Initialized(s.classes), s)
    else if env.apiKey == "" then (InitThrew(MissingApiKey), s)
    else
      match Attempt(env.load, env.initThrows)
      case Some(c) => (Initialized(c), ModuleState(c, true))
      case None => (InitThrew(InitFailed), Reset)
  }

  /** Once memoised, every server-side call returns the cached classes and
      consults neither the API key nor the loader. */
  lemma CachedIgnoresEnvironment(s: ModuleState, e1: Env, e2: Env)
    requires Cached(s) && e1.onServer && e2.onServer
    ensures InitStep(s, e1) == InitStep(s, e2) == (Initialized(s.classes), s)
  {
  }

  /** A missing API key throws before any import is attempted: the loader's
      behaviour does not matter and the module state is unchanged. */
  lemma MissingKeyBeforeImport(s: ModuleState, env: Env, load: Loaded, initThrows: bool)
    requires env.onServer && !Cached(s) && env.apiKey == ""
    ensures InitStep(s, env) == (InitThrew(MissingApiKey), s)
    ensures InitStep(s, env.(load := load, initThrows := initThrows)) == InitStep(s, env)
  {
  }

  /** Initialisation succeeds exactly when the memo holds or all three classes
      are found and `Client.init` does not throw; on every other failure of
      the `try` the variables are reset. */
  lemma InitOutcome(s: ModuleState, env: Env)
    requires env.onServer && env.apiKey != ""
    ensures InitStep(s, env).0.Initialized? <==> Cached(s) || Attempt(env.load, env.initThrows).Some?
    ensures !InitStep(s, env).0.Initialized? ==> InitStep(s, env) == (InitThrew(InitFailed), Reset)
  {
  }

  // ---------------------------------------------------------------------------
  // The service

  /** What an SDK call does: returns a value, or throws. */
  datatype SdkReply = SdkReturned(value: JsonValue.Json) | SdkThrew

  /** The outcome of `createCharge`, as the create-charge route sees it. */
  datatype ServiceOutcome = Created(charge: JsonValue.Json) | ServiceFailed

  /** The outcome of `getCharge`. */
  datatype Lookup = Fetched(charge: JsonValue.Json) | LookupFailed

  /** The outcome of `verifyWebhookSignature`: the truthiness of what
      `verifyEventBody` returned, `false` on any caught failure, or an
      exception from the browser-side guard. */
  datatype VerifyResult = Verdict(valid: bool) | VerifyThrew

  /** What `Webhook.verifyEventBody` does with the body, signature and secret. */
  datatype VerifyReply = VerifyReturned(truthy: bool) | VerifyRejected

  class Gateway {
    var client: JsVal
    var charge: JsVal
    var webhook: JsVal
    var isInitialized: bool

    constructor ()
      ensures State() == Reset
    {
      client, charge, webhook := Null, Null, Null;
      isInitialized := false;
    }

    function State(): ModuleState
      reads this
    {
      ModuleState(Classes(client, charge, webhook), isInitialized)
    }

    /** `initializeCoinbaseCommerce()`. */
    method Initialize(env: Env) returns (r: InitResult)
      modifies this
      ensures (r, State()) == InitStep(old(State()), env)
    {
      if !env.onServer {
        return InitThrew(NotOnServer);
      }
      if isInitialized && Truthy(client) && Truthy(charge) && Truthy(webhook) {
        return Initialized(Classes(client, charge, webhook));
      }
      if env.apiKey == "" {
        return InitThrew(MissingApiKey);
      }
      if env.load.LoadFailed? {
        client, charge, webhook, isInitialized := Null, Null, Null, false;
        return InitThrew(InitFailed);
      }
      var extracted := Extract(env.load.exports);
      if !Complete(extracted) {
        client, charge, webhook, isInitialized := Null, Null, Null, false;
        return InitThrew(InitFailed);
      }
      client, charge, webhook := extracted.client, extracted.charge, extracted.webhook;
      if IsFunction(Field(client, "init")) && env.initThrows {
        client, charge, webhook, isInitialized := Null, Null, Null, false;
        return InitThrew(InitFailed);
      }
      isInitialized := true;
      return Initialized(extracted);
    }

    /** `CoinbaseCommerceService.createCharge(data)`: server only; initialise,
        check that `Charge.create` is a function, then call it. Logging
        `charge.id` throws on a null result, and the catch rethrows. */
    method CreateCharge(env: Env, data: JsonValue.Json, create: JsonValue.Json -> SdkReply)
      returns (r: ServiceOutcome)
      modifies this
      ensures !env.onServer ==> r == ServiceFailed && State() == old(State())
      ensures env.onServer ==> State() == InitStep(old(State()), env).1
      ensures r.Created? <==>
        && env.onServer
        && InitStep(old(State()), env).0.Initialized?
        && IsFunction(Field(InitStep(old(State()), env).0.classes.charge, "create"))
        && create(data).SdkReturned?
        && !create(data).value.JNull?
      ensures r.Created? ==> r.charge == create(data).value
      ensures create(data) == SdkReturned(JsonValue.JNull) ==> r == ServiceFailed
    {
      if !env.onServer {
        return ServiceFailed;
      }
      var init := Initialize(env);
      if init.InitThrew? || !Truthy(init.classes.charge) || !IsFunction(Field(init.classes.charge, "create")) {
        return ServiceFailed;
      }
      match create(data)
      case SdkReturned(v) =>
        if v.JNull? {
          return ServiceFailed;
        }
        return Created(v);
      case SdkThrew => return ServiceFailed;
    }

    /** `CoinbaseCommerceService.getCharge(chargeId)`: server only; initialise,
        check that `Charge.retrieve` is a function, then call it. */
    method GetCharge(env: Env, chargeId: string, retrieve: string -> SdkReply) returns (r: Lookup)
      modifies this
      ensures !env.onServer ==> r == LookupFailed && State() == old(State())
      ensures env.onServer ==> State() == InitStep(old(State()), env).1
      ensures r.Fetched? <==>
        && env.onServer
        && InitStep(old(State()), env).0.Initialized?
        && IsFunction(Field(InitStep(old(State()), env).0.classes.charge, "retrieve"))
        && retrieve(chargeId).SdkReturned?
      ensures r.Fetched? ==> r.charge == retrieve(chargeId).value
    {
      if !env.onServer {
        return LookupFailed;
      }
      var init := Initialize(env);
      if init.InitThrew? || !Truthy(init.classes.charge) || !IsFunction(Field(init.classes.charge, "retrieve")) {
        return LookupFailed;
      }
      match retrieve(chargeId)
      case SdkReturned(v) => return Fetched(v);
      case SdkThrew => return LookupFailed;
    }

    /** `CoinbaseCommerceService.verifyWebhookSignature`: on the server it never
        throws, and answers `false` on any initialisation or verification
        failure. */
    method VerifyWebhookSignature(env: Env, rawBody: string, signature: string, secret: string,
                                  verifyEventBody: (string, string, string) -> VerifyReply)
      returns (r: VerifyResult)
      modifies this
      ensures !env.onServer ==> r == VerifyThrew && State() == old(State())
      ensures env.onServer ==> r.Verdict? && State() == InitStep(old(State()), env).1
      ensures r == Verdict(true) <==>
        && env.onServer
        && InitStep(old(State()), env).0.Initialized?
        && IsFunction(Field(InitStep(old(State()), env).0.classes.webhook, "verifyEventBody"))
        && verifyEventBody(rawBody, signature, secret) == VerifyReturned(true)
    {
      if !env.onServer {
        return VerifyThrew;
      }
      var init := Initialize(env);
      if init.InitThrew? || !Truthy(init.classes.webhook) || !IsFunction(Field(init.classes.webhook, "verifyEventBody")) {
        return Verdict(false);
      }
      match verifyEventBody(rawBody, signature, secret)
      case VerifyReturned(b) => return Verdict(b);
      case VerifyRejected => return Verdict(false);
    }
  }
}
