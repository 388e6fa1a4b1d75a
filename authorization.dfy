/**
 * The authorization gate of the request proxy: `getAuthorizationStrategy`
 * and `isAllowed`, which calls the configured strategy and normalises what
 * it returns into a promise.
 */
module Authorization {

  import opened Wrappers
  import opened JsValues

  /** What one call of a strategy function does. */
  datatype StrategyReturn =
    | ReturnsBool(b: bool)
    | ReturnsPromise(settle: Settle<Value>)
    | ReturnsOther(v: Value)
    | Throws(message: string)

  /**
   * The `authorizationStrategy` field: unset (or another falsy value), a
   * truthy value that is not a function, or a function of
   * `(mode, method, args)`.
   */
  datatype Strategy =
    | Unset
    | NotAFunction
    | Function(call: (string, Option<string>, Value) -> StrategyReturn)

  const NotFunctionMessage := "Authorization strategy must be a function"
  const BadReturnMessage := "Authorization strategy must return true, false or a promise"

  /** The built-in strategy: a promise that resolves true, whatever the call. */
  function DefaultStrategy(mode: string, methodName: Option<string>, args: Value): StrategyReturn {
    ReturnsPromise(Resolved(Bool(true)))
  }

  /** `getAuthorizationStrategy()`: the configured strategy, or the built-in one when unset. */
  function GetStrategy(s: Strategy): (r: Strategy)
    ensures r.Unset? == false
    ensures s.Function? ==> r == s
    ensures s.NotAFunction? ==> r == s
  {
    if s.Unset? then Function(DefaultStrategy) else s
  }

  /**
   * `isAllowed(mode, method, args)`: `Err` is a synchronous throw, `Ok` the
   * promise returned.
   */
  function IsAllowed(s: Strategy, mode: string, methodName: Option<string>, args: Value): Result<Settle<Value>> {
    match GetStrategy(s)
    case NotAFunction => Err(NotFunctionMessage)
    case Function(f) =>
      match f(mode, methodName, args)
      case ReturnsBool(b) => Ok(Resolved(Bool(b)))
      case ReturnsPromise(p) => Ok(p)
      case ReturnsOther(_) => Err(BadReturnMessage)
      case Throws(m) => Err(m)
  }

  /** With no strategy configured every request is allowed. */
  lemma DefaultAllows(mode: string, methodName: Option<string>, args: Value)
    ensures IsAllowed(Unset, mode, methodName, args) == Ok(Resolved(Bool(true)))
  {
  }

  /**
   * A boolean answer resolves to that boolean, a promise is passed through,
   * and anything else the strategy returns, like a strategy that is not a
   * function, throws; nothing else ever makes `isAllowed` throw except the
   * strategy's own exception.
   */
  lemma IsAllowedShapes(f: (string, Option<string>, Value) -> StrategyReturn, mode: string, methodName: Option<string>, args: Value)
    ensures IsAllowed(NotAFunction, mode, methodName, args) == Err(NotFunctionMessage)
    ensures f(mode, methodName, args).ReturnsBool? ==>
      IsAllowed(Function(f), mode, methodName, args) == Ok(Resolved(Bool(f(mode, methodName, args).b)))
    ensures f(mode, methodName, args).ReturnsPromise? ==>
      IsAllowed(Function(f), mode, methodName, args) == Ok(f(mode, methodName, args).settle)
    ensures f(mode, methodName, args).ReturnsOther? ==>
      IsAllowed(Function(f), mode, methodName, args) == Err(BadReturnMessage)
    ensures IsAllowed(Function(f), mode, methodName, args).Err? <==>
      f(mode, methodName, args).ReturnsOther? || f(mode, methodName, args).Throws?
  {
  }

  /** Whether the answer, once settled, lets the request through (`if (!isAllowed)`). */
  predicate Grants(answer: Value) {
    Truthy(answer)
  }
}
