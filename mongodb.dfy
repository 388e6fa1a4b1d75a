/**
 * The MongoDB adapter: which connection strings it accepts, the guard every
 * collection access goes through, and the state `start` leaves behind. The
 * driver itself is outside the model: a connection is a handle, and a CRUD
 * call is the request the adapter hands to the driver.
 */
module Mongodb {

  import opened Wrappers
  import opened JsValues

  /** `sub` occurs in `s` at position `j`. */
  predicate MatchAt(s: string, sub: string, j: int) {
    0 <= j && j + |sub| <= |s| && s[j..j + |sub|] == sub
  }

  /** `s.indexOf(sub, from)`: the first position at or after `from` where `sub` occurs, or -1. */
  function IndexFrom(s: string, sub: string, from: nat): (r: int)
    ensures r == -1 || (from <= r && MatchAt(s, sub, r))
    ensures r != -1 ==> forall j :: from <= j < r ==> !MatchAt(s, sub, j)
    ensures r == -1 ==> forall j :: from <= j ==> !MatchAt(s, sub, j)
    decreases |s| - from
  {
    if from + |sub| > |s| then -1
    else if s[from..from + |sub|] == sub then from
    else IndexFrom(s, sub, from + 1)
  }

  function IndexOf(s: string, sub: string): int {
    IndexFrom(s, sub, 0)
  }

  const Scheme := "mongodb://"

  /** `isCompatible(connector)`: the connector's first occurrence of the scheme is at position 0. */
  predicate IsCompatible(connector: string) {
    IndexOf(connector, Scheme) == 0
  }

  /** Compatible exactly when the connector starts with `mongodb://`. */
  lemma CompatibleIffPrefix(connector: string)
    ensures IsCompatible(connector) <==> Scheme <= connector
  {
    if Scheme <= connector {
      assert connector[0..|Scheme|] == Scheme;
    }
  }

  lemma CompatibleExamples()
    ensures IsCompatible("mongodb://foo")
    ensures !IsCompatible("mysql://foo")
  {
    CompatibleIffPrefix("mongodb://foo");
    CompatibleIffPrefix("mysql://foo");
    assert "mysql://foo"[1] != Scheme[1];
  }

  const NameMessage := "Collection name must be a non-empty string"

  /** `v.length` for a string, an array or an object; `undefined` otherwise. */
  function Length(v: Value): Value {
    match v
    case Str(s) => Num(|s|)
    case Arr(items) => Num(|items|)
    case Obj(props) => Lookup(props, "length")
    case _ => Undefined
  }

  /** `!name || !name.length || typeof name !== 'string'` rejects the name. */
  predicate BadName(name: Value) {
    !Truthy(name) || !Truthy(Length(name)) || !name.Str?
  }

  /** The guard lets through exactly the non-empty strings. */
  lemma BadNameExactly(name: Value)
    ensures !BadName(name) <==> name.Str? && name.s != ""
  {
  }

  /** A connection handed back by the driver. */
  datatype Db = Db(handle: nat)

  datatype CrudOp = Count | Find | FindOne | InsertOne | InsertMany | UpdateOne | UpdateMany | Remove

  /** What a CRUD method hands to the driver: the operation, the collection, the rest of its arguments. */
  datatype DriverCall = DriverCall(db: Db, op: CrudOp, collection: string, args: seq<Value>)

  class MongodbAdapter {
    const url: string
    var db: Option<Db>

    /** The url is stored as given; there is no connection yet. */
    constructor (url: string)
      ensures this.url == url && db == None
    {
      this.url := url;
      db := None;
    }

    /**
     * `getCollection(name)`: throws the name error unless the name is a
     * non-empty string; without a connection the property access on the
     * missing `db` throws.
     */
    method GetCollection(name: Value) returns (r: Result<(Db, string)>)
      ensures BadName(name) ==> r == Err(NameMessage)
      ensures !BadName(name) && db == None ==> r.Err? && r.error != NameMessage
      ensures !BadName(name) && db.Some? ==> r == Ok((db.value, name.s))
    {
      if BadName(name) {
        return Err(NameMessage);
      }
      if db == None {
        return Err("TypeError: Cannot read property 'collection' of undefined");
      }
      return Ok((db.value, name.s));
    }

    /**
     * Every CRUD method: look the collection up through the guard, then
     * forward the remaining arguments to the driver.
     */
    method Crud(op: CrudOp, collection: Value, args: seq<Value>) returns (r: Result<DriverCall>)
      ensures BadName(collection) ==> r == Err(NameMessage)
      ensures r.Ok? <==> !BadName(collection) && db.Some?
      ensures r.Ok? ==> r.value == DriverCall(db.value, op, collection.s, args)
    {
      var c := GetCollection(collection);
      if c.Err? {
        return Err(c.error);
      }
      return Ok(DriverCall(c.value.0, op, c.value.1, args));
    }

    /**
     * `start()` with the driver's connect outcome: a failure rejects with the
     * driver's error and leaves `db` as it was; a success stores the
     * connection and resolves with it.
     */
    method Start(connect: Result<Db>) returns (r: Settle<Db>)
      modifies this
      ensures connect.Err? ==> r == Rejected(connect.error) && db == old(db)
      ensures connect.Ok? ==> r == Resolved(connect.value) && db == Some(connect.value)
    {
      if connect.Err? {
        return Rejected(connect.error);
      }
      db := Some(connect.value);
      return Resolved(connect.value);
    }
  }

  /** A fresh adapter whose connection fails keeps no connection, so every CRUD call still throws. */
  method FailedStartKeepsNoDb(url: string, error: string, op: CrudOp, collection: Value, args: seq<Value>)
    returns (started: Settle<Db>, call: Result<DriverCall>)
    ensures started == Rejected(error)
    ensures call.Err?
  {
    var a := new MongodbAdapter(url);
    started := a.Start(Err(error));
    call := a.Crud(op, collection, args);
  }
}
