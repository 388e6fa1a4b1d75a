/**
 * The fragment of JavaScript values the server passes around: request
 * arguments, stored documents, adapter results and response bodies.
 * Objects keep their properties in insertion order, as JavaScript does,
 * because that order is visible in `JSON.stringify` output.
 */
module JsValues {

  import opened Wrappers

  datatype Value =
    | Undefined
    | Null
    | Bool(b: bool)
    | Num(n: int)
    | Str(s: string)
    | Arr(items: seq<Value>)
    | Obj(props: seq<(string, Value)>)

  /** JavaScript truthiness (numbers are integers here, so NaN does not arise). */
  predicate Truthy(v: Value) {
    match v
    case Undefined => false
    case Null => false
    case Bool(b) => b
    case Num(n) => n != 0
    case Str(s) => s != ""
    case Arr(_) => true
    case Obj(_) => true
  }

  /** A request field that is a string when present. */
  function FieldValue(f: Option<string>): Value {
    match f
    case None => Undefined
    case Some(s) => Str(s)
  }

  /** `String(f)` for such a field, as `'…' + f` produces it. */
  function FieldText(f: Option<string>): string {
    match f
    case None => "undefined"
    case Some(s) => s
  }

  /** A string field is truthy when present and not empty. */
  predicate FieldTruthy(f: Option<string>) {
    f.Some? && f.value != ""
  }

  lemma FieldTruthyAgrees(f: Option<string>)
    ensures FieldTruthy(f) <==> Truthy(FieldValue(f))
  {
  }

  // ---------------------------------------------------------------------
  // Objects as ordered property lists

  /** `k in obj`. */
  predicate HasKey(props: seq<(string, Value)>, k: string) {
    props != [] && (props[0].0 == k || HasKey(props[1..], k))
  }

  /** `obj[k]`: the first property named k, or undefined. */
  function Lookup(props: seq<(string, Value)>, k: string): (r: Value)
    ensures !HasKey(props, k) ==> r == Undefined
  {
    if props == [] then Undefined
    else if props[0].0 == k then props[0].1
    else Lookup(props[1..], k)
  }

  /** Keys are pairwise distinct, as in every JavaScript object. */
  predicate UniqueKeys(props: seq<(string, Value)>) {
    props == [] || (!HasKey(props[1..], props[0].0) && UniqueKeys(props[1..]))
  }

  /** `obj[k] = v`: overwrite the property in place, or append it. */
  function SetProp(props: seq<(string, Value)>, k: string, v: Value): seq<(string, Value)>
    decreases |props|
  {
    if props == [] then [(k, v)]
    else if props[0].0 == k then [(k, v)] + props[1..]
    else [props[0]] + SetProp(props[1..], k, v)
  }

  /** `obj[k] = v` makes k read v, leaves every other key as it was, and keeps keys distinct. */
  lemma {:induction false} SetPropFacts(props: seq<(string, Value)>, k: string, v: Value)
    ensures Lookup(SetProp(props, k, v), k) == v
    ensures forall k' :: k' != k ==> Lookup(SetProp(props, k, v), k') == Lookup(props, k')
    ensures forall k' :: HasKey(SetProp(props, k, v), k') <==> HasKey(props, k') || k' == k
    ensures UniqueKeys(props) ==> UniqueKeys(SetProp(props, k, v))
    decreases |props|
  {
    var r := SetProp(props, k, v);
    if props == [] {
      assert r[1..] == [];
    } else if props[0].0 == k {
      assert r[1..] == props[1..];
    } else {
      SetPropFacts(props[1..], k, v);
      assert r[1..] == SetProp(props[1..], k, v);
    }
  }

  /** `Object.assign(target, source)` on property lists. */
  function Assign(target: seq<(string, Value)>, source: seq<(string, Value)>): (r: seq<(string, Value)>)
    decreases |source|
  {
    if source == [] then target
    else Assign(SetProp(target, source[0].0, source[0].1), source[1..])
  }

  /** `delete obj[k]`. */
  function DeleteProp(props: seq<(string, Value)>, k: string): (r: seq<(string, Value)>)
    ensures !HasKey(r, k)
    ensures forall k' :: k' != k ==> Lookup(r, k') == Lookup(props, k')
    ensures forall k' :: k' != k ==> (HasKey(r, k') <==> HasKey(props, k'))
  {
    if props == [] then []
    else if props[0].0 == k then DeleteProp(props[1..], k)
    else [props[0]] + DeleteProp(props[1..], k)
  }

  /**
   * `Object.assign` lets the source win on every key it has and keeps the
   * target's value on every other key.
   */
  lemma {:induction false} AssignLookup(target: seq<(string, Value)>, source: seq<(string, Value)>, k: string)
    requires UniqueKeys(source)
    ensures Lookup(Assign(target, source), k) == if HasKey(source, k) then Lookup(source, k) else Lookup(target, k)
    ensures HasKey(Assign(target, source), k) <==> HasKey(target, k) || HasKey(source, k)
    decreases |source|
  {
    if source != [] {
      SetPropFacts(target, source[0].0, source[0].1);
      AssignLookup(SetProp(target, source[0].0, source[0].1), source[1..], k);
    }
  }

  /** A key the source does not mention keeps the target's value. */
  lemma {:induction false} AssignKeepsAbsent(target: seq<(string, Value)>, source: seq<(string, Value)>, k: string)
    requires !HasKey(source, k)
    ensures Lookup(Assign(target, source), k) == Lookup(target, k)
    decreases |source|
  {
    if source != [] {
      SetPropFacts(target, source[0].0, source[0].1);
      AssignKeepsAbsent(SetProp(target, source[0].0, source[0].1), source[1..], k);
    }
  }

  // ---------------------------------------------------------------------
  // Text conversions

  function DigitChar(d: nat): char
    requires d < 10
  {
    "0123456789"[d]
  }

  /** Decimal digits of a natural number. */
  function Digits(n: nat): (r: string)
    ensures |r| > 0
    ensures forall i :: 0 <= i < |r| ==> '0' <= r[i] <= '9'
    decreases n
  {
    if n < 10 then [DigitChar(n)] else Digits(n / 10) + [DigitChar(n % 10)]
  }

  function IntText(n: int): string {
    if n < 0 then "-" + Digits(-n) else Digits(n)
  }

  /** A JSON string literal (escaping of quotes and control characters is not modelled). */
  function Quote(s: string): string {
    "\"" + s + "\""
  }

  /**
   * `JSON.stringify(v)`. `undefined` prints as `null`, as it does inside an
   * array; properties whose value is `undefined` are omitted, as in JavaScript.
   */
  function Json(v: Value): string
    decreases v, 1
  {
    match v
    case Undefined => "null"
    case Null => "null"
    case Bool(b) => if b then "true" else "false"
    case Num(n) => IntText(n)
    case Str(s) => Quote(s)
    case Arr(items) => "[" + JsonItems(v, items) + "]"
    case Obj(props) => "{" + JsonProps(v, props) + "}"
  }

  function JsonItems(ghost parent: Value, items: seq<Value>): string
    requires forall i :: 0 <= i < |items| ==> items[i] < parent
    decreases parent, 0, |items|
  {
    if items == [] then ""
    else if |items| == 1 then Json(items[0])
    else Json(items[0]) + "," + JsonItems(parent, items[1..])
  }

  function JsonProps(ghost parent: Value, props: seq<(string, Value)>): string
    requires forall i :: 0 <= i < |props| ==> props[i].1 < parent
    decreases parent, 0, |props|
  {
    if props == [] then ""
    else
      var rest := JsonProps(parent, props[1..]);
      if props[0].1.Undefined? then rest
      else
        var entry := Quote(props[0].0) + ":" + Json(props[0].1);
        if rest == "" then entry else entry + "," + rest
  }
}
