/**
 * The older `Momentum` entry point: it picks an adapter from the table, and
 * `start` decides whether it was handed a port to open an application on
 * or an existing application to attach to.
 */
module MomentumApp {

  import opened Wrappers
  import opened JsValues
  import opened Adapters

  predicate IsDigit(c: char) {
    '0' <= c <= '9'
  }

  predicate AllDigits(s: string) {
    s == [] || (IsDigit(s[0]) && AllDigits(s[1..]))
  }

  /** A decimal integer, optionally signed, as `Number` reads it. */
  predicate Numeral(s: string) {
    var digits := if |s| > 0 && (s[0] == '-' || s[0] == '+') then s[1..] else s;
    |digits| > 0 && AllDigits(digits)
  }

  /** `isNaN(Number(s))` for a string: only the empty string and numerals convert. */
  predicate StringNaN(s: string) {
    s != "" && !Numeral(s)
  }

  /**
   * `isNaN(v)`: whether `Number(v)` is NaN. `null`, booleans and numbers
   * convert; an array converts through its string form, which for a single
   * element is that element's own string form (`""` for null and undefined).
   */
  predicate IsNaN(v: Value)
    decreases v, 0
  {
    match v
    case Undefined => true
    case Null => false
    case Bool(_) => false
    case Num(_) => false
    case Str(s) => StringNaN(s)
    case Arr(items) => |items| > 1 || (|items| == 1 && ElementNaN(items[0]))
    case Obj(_) => true
  }

  /** `isNaN(Number(String(x)))` for the single element `x` of an array. */
  predicate ElementNaN(x: Value)
    decreases x, 1
  {
    match x
    case Undefined => false
    case Null => false
    case Bool(_) => true
    case Num(_) => false
    case Str(s) => StringNaN(s)
    case Arr(_) => IsNaN(x)
    case Obj(_) => true
  }

  class Momentum {
    var adapter: Option<Instance>
    var linkedApp: Value
    var appPort: Value
    var app: Value

    /**
     * `new Momentum(connector)`: walk the table in key order and instantiate
     * every compatible class, each one replacing the previous; with none
     * compatible `adapter` is never assigned.
     */
    constructor (t: Table, connector: string)
      ensures adapter == LastCompatible(t, connector)
      ensures linkedApp == Undefined && appPort == Undefined && app == Undefined
    {
      var chosen := None;
      var i := 0;
      while i < |t|
        invariant 0 <= i <= |t|
        invariant chosen == LastCompatible(t[..i], connector)
      {
        assert t[..i + 1][..i] == t[..i];
        if t[i].1.compatible(connector) {
          chosen := Some(Instance(t[i].0, connector));
        }
        i := i + 1;
      }
      assert t[..|t|] == t;
      adapter := chosen;
      linkedApp := Undefined;
      appPort := Undefined;
      app := Undefined;
    }

    /** `linkApplication(app)`. */
    method LinkApplication(a: Value)
      modifies this
      ensures linkedApp == a
      ensures adapter == old(adapter) && appPort == old(appPort) && app == old(app)
    {
      linkedApp := a;
    }

    /** `setApplicationPort(port)`. */
    method SetApplicationPort(port: Value)
      modifies this
      ensures appPort == port
      ensures adapter == old(adapter) && linkedApp == old(linkedApp) && app == old(app)
    {
      appPort := port;
    }

    /**
     * `start(arg = null)`: an argument that converts to a number is the port
     * (and no application is linked); anything else is the application to
     * link (and the port is `null`). `app` is the linked application when it
     * is truthy, otherwise `freshApp`, the express application created for
     * the port.
     */
    method Start(arg: Option<Value>, freshApp: Value)
      modifies this
      ensures StartPort(arg) ==> appPort == ArgOrNull(arg) && linkedApp == Null
      ensures !StartPort(arg) ==> appPort == Null && linkedApp == ArgOrNull(arg)
      ensures app == if Truthy(linkedApp) then linkedApp else freshApp
      ensures adapter == old(adapter)
    {
      var a := ArgOrNull(arg);
      var port := Null;
      if !IsNaN(a) {
        port := a;
        a := Null;
      }
      SetApplicationPort(port);
      LinkApplication(a);
      app := if Truthy(linkedApp) then linkedApp else freshApp;
    }
  }

  /** The default parameter: a missing argument, or one passed as `undefined`, is `null`. */
  function ArgOrNull(arg: Option<Value>): Value {
    if arg.None? || arg.value.Undefined? then Null else arg.value
  }

  /** `start` treats its argument as a port. */
  predicate StartPort(arg: Option<Value>) {
    !IsNaN(ArgOrNull(arg))
  }

  /**
   * A number is a port, an application object is not; a call without an
   * argument, or with `undefined` (an unset environment variable, say),
   * takes the port branch with a `null` port, so it links nothing and falls
   * back to the fresh application.
   */
  lemma StartDispatch(n: int, props: seq<(string, Value)>)
    ensures StartPort(Some(Num(n)))
    ensures !StartPort(Some(Obj(props)))
    ensures StartPort(None) && ArgOrNull(None) == Null
    ensures StartPort(Some(Undefined)) && ArgOrNull(Some(Undefined)) == Null
    ensures StartPort(Some(Str("3000"))) && !StartPort(Some(Str("http")))
  {
    var word := "http";
    assert word[0] == 'h';
    assert !Numeral(word);
  }

  /** A full start with a port leaves an application that is the fresh one. */
  method StartWithPort(t: Table, connector: string, n: int, freshApp: Value)
    returns (adapter: Option<Instance>, port: Value, app: Value)
    ensures adapter == LastCompatible(t, connector)
    ensures port == Num(n) && app == freshApp
  {
    var m := new Momentum(t, connector);
    m.Start(Some(Num(n)), freshApp);
    adapter, port, app := m.adapter, m.appPort, m.app;
  }

  /** A full start with an application object keeps that application. */
  method StartWithApp(t: Table, connector: string, props: seq<(string, Value)>, freshApp: Value)
    returns (port: Value, app: Value)
    ensures port == Null && app == Obj(props)
  {
    var m := new Momentum(t, connector);
    m.Start(Some(Obj(props)), freshApp);
    port, app := m.appPort, m.app;
  }
}
