/**
 * The adapter table shared by a module's constructors: entries in key
 * order, each a class that says whether it accepts the connection arguments.
 * The server picks the first compatible entry; the older `Momentum` class
 * keeps the last one it instantiates.
 */
module Adapters {

  import opened Wrappers
  import Mongodb

  /** An adapter class as far as selection sees it: its static `isCompatible`. */
  datatype AdapterClass = AdapterClass(compatible: string -> bool)

  type Table = seq<(string, AdapterClass)>

  /** An adapter built by `new AdapterClass(connector)`: which entry built it and from what. */
  datatype Instance = Instance(name: string, connector: string)

  const MongodbClass := AdapterClass(Mongodb.IsCompatible)

  /** The table both modules start with. */
  const Initial: Table := [("mongodb", MongodbClass)]

  function Names(t: Table): (r: seq<string>)
    ensures |r| == |t| && forall i :: 0 <= i < |t| ==> r[i] == t[i].0
  {
    if t == [] then [] else [t[0].0] + Names(t[1..])
  }

  ghost predicate UniqueNames(t: Table) {
    forall i, j :: 0 <= i < j < |t| ==> t[i].0 != t[j].0
  }

  /** `adapters[name] = adapter`: replace the entry in place, or append a new one. */
  function Upsert(t: Table, name: string, c: AdapterClass): (r: Table)
    ensures |r| == |t| + (if name in Names(t) then 0 else 1)
    ensures Names(r) == if name in Names(t) then Names(t) else Names(t) + [name]
    ensures forall i :: 0 <= i < |t| && t[i].0 != name ==> r[i] == t[i]
    ensures forall i :: 0 <= i < |r| && r[i].0 == name ==> r[i].1 == c
  {
    if name in Names(t) then
      var r := seq(|t|, i requires 0 <= i < |t| => if t[i].0 == name then (name, c) else t[i]);
      assert Names(r) == Names(t);
      r
    else
      var r := t + [(name, c)];
      assert Names(r) == Names(t) + [name];
      r
  }

  lemma {:induction false} UpsertUnique(t: Table, name: string, c: AdapterClass)
    requires UniqueNames(t)
    ensures UniqueNames(Upsert(t, name, c))
  {
    var r := Upsert(t, name, c);
    forall i, j | 0 <= i < j < |r| ensures r[i].0 != r[j].0 {
      assert Names(r)[i] == r[i].0 && Names(r)[j] == r[j].0;
      if name !in Names(t) && j == |t| {
        assert r[i].0 == Names(t)[i];
      }
    }
  }

  /** The entry the server selects: the first compatible one in key order. */
  function FirstCompatible(t: Table, connector: string): (r: Option<Instance>)
    ensures r.None? <==> forall i :: 0 <= i < |t| ==> !t[i].1.compatible(connector)
    ensures r.Some? ==> exists i :: 0 <= i < |t| && t[i].1.compatible(connector) && r.value == Instance(t[i].0, connector)
                          && forall j :: 0 <= j < i ==> !t[j].1.compatible(connector)
  {
    if t == [] then None
    else if t[0].1.compatible(connector) then Some(Instance(t[0].0, connector))
    else
      var r := FirstCompatible(t[1..], connector);
      if r.Some? then
        ghost var i :| 0 <= i < |t[1..]| && t[1..][i].1.compatible(connector) && r.value == Instance(t[1..][i].0, connector)
                      && forall j :: 0 <= j < i ==> !t[1..][j].1.compatible(connector);
        assert t[i + 1] == t[1..][i];
        r
      else r
  }

  /** The entry `Momentum` keeps: every compatible entry overwrites the previous one. */
  function LastCompatible(t: Table, connector: string): (r: Option<Instance>)
    ensures r.None? <==> forall i :: 0 <= i < |t| ==> !t[i].1.compatible(connector)
    ensures r.Some? ==> exists i :: 0 <= i < |t| && t[i].1.compatible(connector) && r.value == Instance(t[i].0, connector)
                          && forall j :: i < j < |t| ==> !t[j].1.compatible(connector)
  {
    if t == [] then None
    else
      var last := t[|t| - 1];
      if last.1.compatible(connector) then Some(Instance(last.0, connector))
      else
        var front := t[..|t| - 1];
        var r := LastCompatible(front, connector);
        if r.Some? then
          ghost var i :| 0 <= i < |front| && front[i].1.compatible(connector) && r.value == Instance(front[i].0, connector)
                        && forall j :: i < j < |front| ==> !front[j].1.compatible(connector);
          assert t[i] == front[i];
          assert forall j :: i < j < |t| ==> !t[j].1.compatible(connector) by {
            forall j | i < j < |t| ensures !t[j].1.compatible(connector) {
              if j < |front| { assert t[j] == front[j]; }
            }
          }
          r
        else
          assert forall i :: 0 <= i < |t| ==> !t[i].1.compatible(connector) by {
            forall i | 0 <= i < |t| ensures !t[i].1.compatible(connector) {
              if i < |front| { assert t[i] == front[i]; }
            }
          }
          r
  }

  /**
   * `createAdapterInstance(connector)`: shift names off the key list until a
   * compatible class is found and instantiate it; `null` when none is.
   */
  method CreateAdapterInstance(t: Table, connector: string) returns (r: Option<Instance>)
    ensures r == FirstCompatible(t, connector)
  {
    var names := t;
    while |names| > 0
      invariant |names| <= |t| && names == t[|t| - |names|..]
      invariant FirstCompatible(t, connector) == FirstCompatible(names, connector)
      decreases |names|
    {
      var entry := names[0];
      names := names[1..];
      if entry.1.compatible(connector) {
        return Some(Instance(entry.0, connector));
      }
    }
    return None;
  }

  /** With the initial table the server builds a MongoDB adapter exactly for `mongodb://` connectors. */
  lemma InitialSelection(connector: string)
    ensures FirstCompatible(Initial, connector).Some? <==> Mongodb.Scheme <= connector
    ensures FirstCompatible(Initial, connector) == LastCompatible(Initial, connector)
  {
    Mongodb.CompatibleIffPrefix(connector);
  }

  /** When at most one entry is compatible, the two rules agree. */
  lemma {:induction false} RulesAgreeOnOne(t: Table, connector: string)
    requires forall i, j :: 0 <= i < j < |t| && t[i].1.compatible(connector) ==> !t[j].1.compatible(connector)
    ensures FirstCompatible(t, connector) == LastCompatible(t, connector)
  {
    var f := FirstCompatible(t, connector);
    var l := LastCompatible(t, connector);
    if f.Some? {
      var i :| 0 <= i < |t| && t[i].1.compatible(connector) && f.value == Instance(t[i].0, connector)
               && forall j :: 0 <= j < i ==> !t[j].1.compatible(connector);
      var k :| 0 <= k < |t| && t[k].1.compatible(connector) && l.value == Instance(t[k].0, connector)
               && forall j :: k < j < |t| ==> !t[j].1.compatible(connector);
      assert i == k;
    }
  }

  /** Two compatible entries: the server takes the first, `Momentum` the last. */
  lemma RulesDifferOnTwo(a: AdapterClass, b: AdapterClass, connector: string)
    requires a.compatible(connector) && b.compatible(connector)
    ensures FirstCompatible([("a", a), ("b", b)], connector) == Some(Instance("a", connector))
    ensures LastCompatible([("a", a), ("b", b)], connector) == Some(Instance("b", connector))
  {
    var t := [("a", a), ("b", b)];
    assert t[..|t| - 1] == [("a", a)];
  }

  /** The adapter table a module holds; `addAdapter` is its only writer. */
  class Registry {
    var table: Table

    /** The keys of a JavaScript object are distinct. */
    ghost predicate Valid()
      reads this
    {
      UniqueNames(table)
    }

    constructor ()
      ensures Valid() && table == Initial
    {
      table := Initial;
    }

    /** `addAdapter(name, adapter)`. */
    method AddAdapter(name: string, c: AdapterClass)
      requires Valid()
      modifies this
      ensures Valid() && table == Upsert(old(table), name, c)
    {
      UpsertUnique(table, name, c);
      table := Upsert(table, name, c);
    }
  }

  /** A table with exactly one compatible entry selects it under both rules. */
  lemma {:induction false} OnlyCompatible(t: Table, k: nat, connector: string)
    requires k < |t| && t[k].1.compatible(connector)
    requires forall i :: 0 <= i < |t| && i != k ==> !t[i].1.compatible(connector)
    ensures FirstCompatible(t, connector) == Some(Instance(t[k].0, connector))
    ensures LastCompatible(t, connector) == Some(Instance(t[k].0, connector))
  {
    var f := FirstCompatible(t, connector);
    var i :| 0 <= i < |t| && t[i].1.compatible(connector) && f.value == Instance(t[i].0, connector);
    var l := LastCompatible(t, connector);
    var m :| 0 <= m < |t| && t[m].1.compatible(connector) && l.value == Instance(t[m].0, connector);
  }

  /** After `addAdapter(name, c)`, a connector only `c` accepts selects `name`, under both rules. */
  lemma {:induction false} AddedAdapterSelected(t: Table, name: string, c: AdapterClass, connector: string)
    requires UniqueNames(t)
    requires c.compatible(connector)
    requires forall i :: 0 <= i < |t| && t[i].0 != name ==> !t[i].1.compatible(connector)
    ensures FirstCompatible(Upsert(t, name, c), connector) == Some(Instance(name, connector))
    ensures LastCompatible(Upsert(t, name, c), connector) == Some(Instance(name, connector))
  {
    var r := Upsert(t, name, c);
    UpsertUnique(t, name, c);
    assert name in Names(r);
    var k :| 0 <= k < |r| && Names(r)[k] == name;
    forall i | 0 <= i < |r| && i != k ensures !r[i].1.compatible(connector) {
      assert Names(r)[i] == r[i].0;
      if i < |t| {
        assert r[i] == t[i];
      }
    }
    OnlyCompatible(r, k, connector);
  }
}
