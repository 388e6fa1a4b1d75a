/**
 * `proxyDataBaseRequest` and the two routes built on it, `/emit` (writes)
 * and `/data` (reads): a fixed ladder of checks, then a call of the named
 * server method whose result is transformed and sent back together with the
 * request's `args` and `method`.
 *
 * What the called method's promise does, what the adapter's `getItemId`
 * gives for an inserted document, and whether the token is valid are inputs.
 */
module RequestProxy {

  import opened Wrappers
  import opened JsValues
  import opened Http
  import opened Authorization

  datatype TransformKind = EmitResult | DataResult

  /** A route built on the proxy: its mode, its allowed methods, its result transform. */
  datatype Route = Route(mode: string, allowed: seq<string>, transform: TransformKind)

  const EmitRoute := Route("emit", ["insertOne", "insertMany", "updateOne", "updateMany", "remove"], EmitResult)
  const DataRoute := Route("data", ["findOne", "find", "count"], DataResult)

  /** The keys the `/emit` transform deletes from an adapter result. */
  const DroppedKeys := ["message", "ops", "connection"]

  /** `{0: vs[0], 1: vs[1], …}` with the indices counted from `start`. */
  function IndexProps(vs: seq<Value>, start: nat): seq<(string, Value)>
    decreases |vs|
  {
    if vs == [] then [] else [(IntText(start), vs[0])] + IndexProps(vs[1..], start + 1)
  }

  function CharValues(s: string): (r: seq<Value>)
    ensures |r| == |s|
  {
    if s == [] then [] else [Str([s[0]])] + CharValues(s[1..])
  }

  /**
   * `Object.assign({result: result.result}, result)`, or the TypeError thrown
   * by reading `.result` of `null` or `undefined`.
   */
  function EmitBase(result: Value): (r: Result<seq<(string, Value)>>)
    ensures r.Err? <==> result.Null? || result.Undefined?
  {
    match result
    case Undefined => Err("TypeError: Cannot read property 'result' of undefined")
    case Null => Err("TypeError: Cannot read property 'result' of null")
    case Obj(props) => Ok(Assign([("result", Lookup(props, "result"))], props))
    case Arr(items) => Ok(Assign([("result", Undefined)], IndexProps(items, 0)))
    case Str(s) => Ok(Assign([("result", Undefined)], IndexProps(CharValues(s), 0)))
    case _ => Ok([("result", Undefined)])
  }

  /** `keys.forEach(key => { delete data[key]; })`. */
  function DeleteKeys(props: seq<(string, Value)>, keys: seq<string>): seq<(string, Value)>
    decreases |keys|
  {
    if keys == [] then props else DeleteKeys(DeleteProp(props, keys[0]), keys[1..])
  }

  lemma {:induction false} DeleteKeysLookup(props: seq<(string, Value)>, keys: seq<string>, k: string)
    ensures k in keys ==> !HasKey(DeleteKeys(props, keys), k)
    ensures k !in keys ==> Lookup(DeleteKeys(props, keys), k) == Lookup(props, k)
    ensures k !in keys ==> (HasKey(DeleteKeys(props, keys), k) <==> HasKey(props, k))
    decreases |keys|
  {
    if keys != [] {
      DeleteKeysLookup(DeleteProp(props, keys[0]), keys[1..], k);
      if k == keys[0] {
        DeleteKeysAbsent(DeleteProp(props, keys[0]), keys[1..], k);
      }
    }
  }

  lemma {:induction false} DeleteKeysAbsent(props: seq<(string, Value)>, keys: seq<string>, k: string)
    requires !HasKey(props, k)
    ensures !HasKey(DeleteKeys(props, keys), k)
    decreases |keys|
  {
    if keys != [] {
      DeleteKeysAbsent(DeleteProp(props, keys[0]), keys[1..], k);
    }
  }

  /** The `/emit` transform as a whole. */
  function EmitTransformOf(result: Value): Result<seq<(string, Value)>> {
    match EmitBase(result)
    case Err(e) => Err(e)
    case Ok(base) => Ok(DeleteKeys(base, DroppedKeys))
  }

  /** The `/emit` transform, deleting the keys one after the other. */
  method EmitTransform(result: Value) returns (r: Result<seq<(string, Value)>>)
    ensures r == EmitTransformOf(result)
  {
    var base := EmitBase(result);
    if base.Err? {
      return Err(base.error);
    }
    var data := base.value;
    var i := 0;
    while i < |DroppedKeys|
      invariant 0 <= i <= |DroppedKeys|
      invariant DeleteKeys(data, DroppedKeys[i..]) == DeleteKeys(base.value, DroppedKeys)
    {
      data := DeleteProp(data, DroppedKeys[i]);
      i := i + 1;
    }
    r := Ok(data);
  }

  /**
   * The `/emit` transform keeps `result`, drops `message`, `ops` and
   * `connection`, and leaves every other property of an object result as it
   * was; it throws only on `null` and `undefined`.
   */
  lemma EmitTransformKeys(props: seq<(string, Value)>, k: string)
    requires UniqueKeys(props)
    ensures EmitTransformOf(Obj(props)).Ok?
    ensures k in DroppedKeys ==> !HasKey(EmitTransformOf(Obj(props)).value, k)
    ensures k !in DroppedKeys ==> Lookup(EmitTransformOf(Obj(props)).value, k) == Lookup(props, k)
    ensures HasKey(EmitTransformOf(Obj(props)).value, "result")
  {
    var base := Assign([("result", Lookup(props, "result"))], props);
    AssignLookup([("result", Lookup(props, "result"))], props, k);
    AssignLookup([("result", Lookup(props, "result"))], props, "result");
    DeleteKeysLookup(base, DroppedKeys, k);
    DeleteKeysLookup(base, DroppedKeys, "result");
  }

  /** The `/data` transform: `{result}`. */
  function DataTransformOf(result: Value): (r: seq<(string, Value)>)
    ensures Lookup(r, "result") == result
    ensures forall k :: HasKey(r, k) <==> k == "result"
  {
    [("result", result)]
  }

  function Transform(kind: TransformKind, result: Value): Result<seq<(string, Value)>> {
    match kind
    case EmitResult => EmitTransformOf(result)
    case DataResult => Ok(DataTransformOf(result))
  }

  // ---------------------------------------------------------------------
  // The ladder

  /**
   * `typeof args !== 'object' || args.length < 1`; `Err` when reading
   * `length` throws (`args` is `null`).
   */
  function ArgsEmpty(args: Value): (r: Result<bool>)
    ensures r.Err? <==> args.Null?
    ensures args.Arr? ==> r == Ok(|args.items| < 1)
    ensures args.Undefined? || args.Bool? || args.Num? || args.Str? ==> r == Ok(true)
    ensures args.Obj? && !HasKey(args.props, "length") ==> r == Ok(false)
    ensures args.Obj? && Lookup(args.props, "length").Num? ==> r == Ok(Lookup(args.props, "length").n < 1)
  {
    match args
    case Null => Err("TypeError: Cannot read property 'length' of null")
    case Arr(items) => Ok(|items| < 1)
    case Obj(props) => Ok(BelowOne(Lookup(props, "length")))
    case _ => Ok(true)
  }

  /** `v < 1` for the values a `length` property can hold here. */
  predicate BelowOne(v: Value) {
    match v
    case Null => true
    case Bool(b) => !b
    case Num(n) => n < 1
    case _ => false
  }

  /** Whether the authorization resolved to a truthy answer; `None` when it threw or did not resolve. */
  function Granted(strategy: Strategy, route: Route, methodName: Option<string>, args: Value): Option<bool> {
    match IsAllowed(strategy, route.mode, methodName, args)
    case Ok(Resolved(answer)) => Some(Grants(answer))
    case _ => None
  }

  /** How the handler ends: with `end(status, data)`, or silently. */
  datatype Ending = Silent | End(status: nat, data: seq<(string, Value)>)

  /** `{error: error + ''}` after a rejection, and the status `end` gives it. */
  function Failure(reason: string): Ending {
    End(if reason != "" then 500 else 200, [("error", Str(reason))])
  }

  function NotAllowedMessage(methodName: Option<string>, args: Value): string {
    FieldText(methodName) + " not allowed with " + Json(args)
  }

  /**
   * Everything after a valid token: the method check, the argument check,
   * the authorization, the call and the transform.
   */
  function Decide(route: Route, methodName: Option<string>, args: Value, strategy: Strategy,
                  call: Settle<Value>): (r: Ending)
    ensures r.End? ==> r.status in {200, 400, 403, 500}
    ensures r.End? && r.status == 200 ==>
      (Granted(strategy, route, methodName, args) == Some(true) && call.Resolved?) || r.data == [("error", Str(""))]
    ensures !(methodName.Some? && methodName.value in route.allowed) ==> r.End? && r.status == 400
  {
    if !(methodName.Some? && methodName.value in route.allowed) then
      End(400, [("error", Str(FieldText(methodName) + " method unknown"))])
    else
      match ArgsEmpty(args)
      case Err(_) => Silent
      case Ok(empty) =>
        if empty then End(403, [("error", Str("Arguments cannot be empty"))])
        else
          match IsAllowed(strategy, route.mode, methodName, args)
          case Err(_) => Silent
          case Ok(Pending) => Silent
          case Ok(Rejected(reason)) => Failure(reason)
          case Ok(Resolved(answer)) =>
            if !Grants(answer) then End(403, [("error", Str(NotAllowedMessage(methodName, args)))])
            else
              match call
              case Pending => Silent
              case Rejected(reason) => Failure(reason)
              case Resolved(result) =>
                match Transform(route.transform, result)
                case Err(reason) => Failure(reason)
                case Ok(data) => End(if Truthy(Lookup(data, "error")) then 500 else 200, data)
  }

  /** The `args` the reply shows: for `insertOne` the array with the inserted id pushed. */
  function EchoedArgs(methodName: Option<string>, args: Value, insertedId: Value): Value {
    if methodName == Some("insertOne") && args.Arr? then Arr(args.items + [insertedId]) else args
  }

  /**
   * `end(status, data)`: `Object.assign({args, method}, data)`, then for
   * `insertOne` `args.push(getItemId(args[1]))`, which throws when `args` is
   * not an array.
   */
  function EndReply(status: nat, data: seq<(string, Value)>, methodName: Option<string>, args: Value,
                    insertedId: Value): Reply
  {
    if methodName == Some("insertOne") && !args.Arr? then NoReply
    else Reply(status, Obj(Assign([("args", EchoedArgs(methodName, args, insertedId)),
                                   ("method", FieldValue(methodName))], data)))
  }

  /** `proxyDataBaseRequest(mode, request, response, allowedMethods, transform)` once the token is checked. */
  function Proxy(route: Route, methodName: Option<string>, args: Value, token: Option<string>, valid: bool,
                 strategy: Strategy, call: Settle<Value>, insertedId: Value): (r: Reply)
    ensures !valid ==> r.Reply? && r.status == 500
    ensures valid && r.Reply? ==>
      (Decide(route, methodName, args, strategy, call).End?
       && r.status == Decide(route, methodName, args, strategy, call).status)
    ensures r.Reply? ==> r.status in {200, 400, 403, 500}
  {
    if !valid then InvalidToken(token)
    else
      match Decide(route, methodName, args, strategy, call)
      case Silent => NoReply
      case End(status, data) => EndReply(status, data, methodName, args, insertedId)
  }

  // ---------------------------------------------------------------------
  // Properties of the ladder

  /** An invalid token is answered 500 'Invalid token <t>', with no echo. */
  lemma ProxyInvalidToken(route: Route, methodName: Option<string>, args: Value, token: Option<string>,
                          strategy: Strategy, call: Settle<Value>, insertedId: Value)
    ensures var r := Proxy(route, methodName, args, token, false, strategy, call, insertedId);
      && r.Reply? && r.status == 500 && r.body.Obj?
      && Lookup(r.body.props, "error") == Str("Invalid token " + FieldText(token))
      && !HasKey(r.body.props, "args") && !HasKey(r.body.props, "method")
  {
  }

  /**
   * After the token check the rungs apply in order: an unknown method gives
   * 400, then empty arguments give 403, then a denial gives 403; a rejected
   * authorization replies with its reason as the error; a throw from the
   * strategy, an unsettled promise or `null` arguments give no reply.
   */
  lemma DecideLadder(route: Route, methodName: Option<string>, args: Value, strategy: Strategy, call: Settle<Value>)
    ensures var d := Decide(route, methodName, args, strategy, call);
      var known := methodName.Some? && methodName.value in route.allowed;
      && (!known ==> d == End(400, [("error", Str(FieldText(methodName) + " method unknown"))]))
      && (known && args.Null? ==> d == Silent)
      && (known && ArgsEmpty(args) == Ok(true) ==> d == End(403, [("error", Str("Arguments cannot be empty"))]))
      && (known && ArgsEmpty(args) == Ok(false) ==>
            && (IsAllowed(strategy, route.mode, methodName, args).Err? ==> d == Silent)
            && (IsAllowed(strategy, route.mode, methodName, args) == Ok(Pending) ==> d == Silent)
            && (IsAllowed(strategy, route.mode, methodName, args).Ok?
                && IsAllowed(strategy, route.mode, methodName, args).value.Rejected? ==>
                  d == Failure(IsAllowed(strategy, route.mode, methodName, args).value.reason))
            && (Granted(strategy, route, methodName, args) == Some(false) ==>
                  d == End(403, [("error", Str(NotAllowedMessage(methodName, args)))])))
  {
  }

  /**
   * Once the request is allowed, the call decides the ending: a pending call
   * gives no reply; a rejection replies `{error: reason}`; a resolved value
   * replies with its transform as the data, or with the transform's own
   * error when it throws. Every such ending has status 500 exactly when the
   * data carries a truthy `error`, and 200 otherwise.
   */
  lemma DecideStatus(route: Route, methodName: Option<string>, args: Value, strategy: Strategy, call: Settle<Value>)
    requires methodName.Some? && methodName.value in route.allowed
    requires ArgsEmpty(args) == Ok(false)
    requires Granted(strategy, route, methodName, args) == Some(true)
    ensures var d := Decide(route, methodName, args, strategy, call);
      && (call.Pending? ==> d == Silent)
      && (call.Rejected? ==> d == End(if call.reason != "" then 500 else 200, [("error", Str(call.reason))]))
      && (call.Resolved? && Transform(route.transform, call.value).Ok? ==>
            d.End? && d.data == Transform(route.transform, call.value).value)
      && (call.Resolved? && Transform(route.transform, call.value).Err? ==>
            d == End(if Transform(route.transform, call.value).error != "" then 500 else 200,
                     [("error", Str(Transform(route.transform, call.value).error))]))
      && (d.End? ==> d.status == (if Truthy(Lookup(d.data, "error")) then 500 else 200))
  {
  }

  /** The data of every error rung has a single key, `error`; the data route's result has a single key, `result`. */
  lemma EndingKeys(route: Route, methodName: Option<string>, args: Value, strategy: Strategy, call: Settle<Value>)
    requires Decide(route, methodName, args, strategy, call).End?
    requires route.transform == DataResult || !call.Resolved? || Granted(strategy, route, methodName, args) != Some(true)
    ensures var d := Decide(route, methodName, args, strategy, call);
      !HasKey(d.data, "args") && !HasKey(d.data, "method")
  {
  }

  /**
   * Every reply after the token check echoes `method` and `args` (with the
   * inserted document's id pushed for `insertOne`) unless the data itself
   * carries those keys, and shows every key of the data.
   */
  lemma ProxyEchoes(route: Route, methodName: Option<string>, args: Value, token: Option<string>,
                    strategy: Strategy, call: Settle<Value>, insertedId: Value, k: string)
    requires Decide(route, methodName, args, strategy, call).End?
    requires UniqueKeys(Decide(route, methodName, args, strategy, call).data)
    ensures var d := Decide(route, methodName, args, strategy, call);
      var r := Proxy(route, methodName, args, token, true, strategy, call, insertedId);
      && (r.NoReply? <==> methodName == Some("insertOne") && !args.Arr?)
      && (r.Reply? ==>
            && r.status == d.status && r.body.Obj?
            && (HasKey(d.data, k) ==> Lookup(r.body.props, k) == Lookup(d.data, k))
            && (!HasKey(d.data, "method") ==> Lookup(r.body.props, "method") == FieldValue(methodName))
            && (!HasKey(d.data, "args") ==> Lookup(r.body.props, "args") == EchoedArgs(methodName, args, insertedId)))
  {
    var d := Decide(route, methodName, args, strategy, call);
    var target := [("args", EchoedArgs(methodName, args, insertedId)), ("method", FieldValue(methodName))];
    AssignLookup(target, d.data, k);
    AssignLookup(target, d.data, "method");
    AssignLookup(target, d.data, "args");
  }

  /** For `insertOne` with array arguments the echoed `args` end with the inserted id. */
  lemma InsertOneEchoesId(items: seq<Value>, insertedId: Value)
    ensures var e := EchoedArgs(Some("insertOne"), Arr(items), insertedId);
      e.Arr? && |e.items| == |items| + 1 && e.items[..|items|] == items && e.items[|items|] == insertedId
  {
  }
}
