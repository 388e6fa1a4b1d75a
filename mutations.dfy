/**
 * The write proxy of the server: `insert`, `updateOne`, `updateMany` and
 * `remove` call the adapter and, once its promise settles, publish events on
 * the bus (`callWithEvents`, `emitEvent`, `emitError`, `emitForEachItem`).
 *
 * The adapter is abstract: a collection is a list of documents, a filter is
 * a query object together with the documents it matches, and what the
 * adapter does with a call is an input (`ready`, the answer of the reading
 * call, the answer of the write). An operation yields the settlement of the
 * promise it returns and the `emit` calls it makes, in order, or the error
 * it throws before returning any promise.
 */
module Mutations {

  import opened Wrappers
  import opened JsValues
  import opened Topics

  /** A stored document: the id `getItemId` gives for it, and its content. */
  datatype Doc = Doc(id: string, body: Value)

  /** A query object and the documents it selects. */
  datatype Filter = Filter(query: Value, matches: Doc -> bool)

  type Store = map<string, seq<Doc>>

  /** How the returned promise settles, and what was emitted on the way. */
  datatype Outcome = Outcome(promise: Settle<Value>, emissions: seq<Emission>)

  /**
   * What an adapter write method does when called: return a promise that
   * resolves or rejects, or throw before returning (as the MongoDB
   * adapter's collection-name guard does).
   */
  datatype Answer = Resolves(value: Value) | Rejects(error: string) | Throws(error: string)

  /**
   * What the pre-read (`find`, `findOne`) does when called; when its promise
   * resolves, it resolves with the documents of the store the filter selects.
   */
  datatype Read = ReadResolves | ReadRejects(error: string) | ReadThrows(error: string)

  /** How `emitForEachItem` is told to emit (`this[method]`). */
  datatype EmitKind = EmitEventKind | EmitErrorKind

  function Docs(store: Store, collection: string): seq<Doc> {
    if collection in store then store[collection] else []
  }

  /** What `find(collection, filter)` resolves with, in store order. */
  function Matching(docs: seq<Doc>, filter: Filter): (r: seq<Doc>)
    ensures forall d :: d in r <==> d in docs && filter.matches(d)
    ensures |r| <= |docs|
  {
    if docs == [] then []
    else if filter.matches(docs[0]) then [docs[0]] + Matching(docs[1..], filter)
    else Matching(docs[1..], filter)
  }

  /**
   * The read keeps the store's order: matching a concatenation matches each
   * part in turn, and a single document is kept exactly when it matches.
   */
  lemma {:induction false} MatchingAppend(a: seq<Doc>, b: seq<Doc>, filter: Filter)
    ensures Matching(a + b, filter) == Matching(a, filter) + Matching(b, filter)
    ensures forall d :: Matching([d], filter) == if filter.matches(d) then [d] else []
    decreases |a|
  {
    if a == [] {
      assert a + b == b;
    } else {
      assert (a + b)[1..] == a[1..] + b;
      MatchingAppend(a[1..], b, filter);
    }
    forall d ensures Matching([d], filter) == if filter.matches(d) then [d] else [] {
      assert [d][1..] == [];
    }
  }

  /** The first document read is the first matching one in store order. */
  lemma {:induction false} MatchingFirst(docs: seq<Doc>, filter: Filter)
    requires Matching(docs, filter) != []
    ensures exists k :: 0 <= k < |docs| && docs[k] == Matching(docs, filter)[0] && filter.matches(docs[k])
                        && forall j :: 0 <= j < k ==> !filter.matches(docs[j])
    decreases |docs|
  {
    if !filter.matches(docs[0]) {
      MatchingFirst(docs[1..], filter);
      var k :| 0 <= k < |docs[1..]| && docs[1..][k] == Matching(docs[1..], filter)[0] && filter.matches(docs[1..][k])
               && forall j :: 0 <= j < k ==> !filter.matches(docs[1..][j]);
      assert docs[k + 1] == docs[1..][k];
      forall j | 0 <= j < k + 1 ensures !filter.matches(docs[j]) {
        if j > 0 {
          assert docs[j] == docs[1..][j - 1];
        }
      }
    } else {
      assert docs[0] == Matching(docs, filter)[0];
    }
  }

  /** `objects.map(obj => this.getItemId(obj))`. */
  function Ids(docs: seq<Doc>): (r: seq<string>)
    ensures |r| == |docs|
    ensures forall i :: 0 <= i < |docs| ==> r[i] == docs[i].id
  {
    if docs == [] then [] else [docs[0].id] + Ids(docs[1..])
  }

  function StrList(ss: seq<string>): (r: seq<Value>)
    ensures |r| == |ss|
    ensures forall i :: 0 <= i < |ss| ==> r[i] == Str(ss[i])
  {
    if ss == [] then [] else [Str(ss[0])] + StrList(ss[1..])
  }

  /** `emitEvent(kind, param, ...args)`: emits `<type>:<param>` with the type name first. */
  function EmitEvent(e: EventType, param: string, args: seq<Value>): Emission
  {
    Emission(DataTopic(e, param), [Str(TypeName(e))] + args)
  }

  /** `emitError(kind, param, ...args)`: the same on `<type>-error:<param>`. */
  function EmitError(e: EventType, param: string, args: seq<Value>): Emission
  {
    Emission(ErrorTopic(e, param), [Str(ErrorName(e))] + args)
  }

  function EmitBy(kind: EmitKind, e: EventType, param: string, args: seq<Value>): (r: Emission)
    ensures r.topic == if kind == EmitEventKind then DataTopic(e, param) else ErrorTopic(e, param)
    ensures |r.args| == 1 + |args| && r.args[1..] == args
  {
    match kind
    case EmitEventKind => EmitEvent(e, param, args)
    case EmitErrorKind => EmitError(e, param, args)
  }

  /**
   * `callAdapter(method, …)`: the adapter's promise when the server is
   * ready, a promise that never settles otherwise; `Err` when the adapter
   * method throws instead of returning a promise.
   */
  function CallAdapter(ready: bool, answer: Answer): Result<Settle<Value>>
  {
    if !ready then Ok(Pending)
    else match answer
      case Resolves(v) => Ok(Resolved(v))
      case Rejects(e) => Ok(Rejected(e))
      case Throws(e) => Err(e)
  }

  /** One emit of `emitForEachItem`: on the item's topic, with the event and `id` set first. */
  function ItemEmission(kind: EmitKind, e: EventType, collection: string, id: string,
                        event: seq<(string, Value)>): Emission {
    EmitBy(kind, e, ItemParam(collection, id), [Obj(Assign([("id", Str(id))], event))])
  }

  /** The emissions of `emitForEachItem`, one per id, in order. */
  function ItemEmissions(kind: EmitKind, e: EventType, collection: string, ids: seq<string>,
                         event: seq<(string, Value)>): (r: seq<Emission>)
    ensures |r| == |ids|
    ensures forall i :: 0 <= i < |ids| ==> r[i] == ItemEmission(kind, e, collection, ids[i], event)
  {
    Map(id => ItemEmission(kind, e, collection, id, event), ids)
  }

  /** `xs.map(f)`. */
  function Map<A, B>(f: A -> B, xs: seq<A>): (r: seq<B>)
    ensures |r| == |xs|
    ensures forall i :: 0 <= i < |xs| ==> r[i] == f(xs[i])
  {
    seq(|xs|, i requires 0 <= i < |xs| => f(xs[i]))
  }

  /** Mapping one more element appends its image. */
  lemma MapSnoc<A, B>(f: A -> B, xs: seq<A>, i: int)
    requires 0 <= i < |xs|
    ensures Map(f, xs[..i + 1]) == Map(f, xs[..i]) + [f(xs[i])]
  {
    var lhs := Map(f, xs[..i + 1]);
    var rhs := Map(f, xs[..i]) + [f(xs[i])];
    forall j | 0 <= j < i + 1 ensures lhs[j] == rhs[j] {
      assert xs[..i + 1][j] == xs[j];
      if j < i {
        assert xs[..i][j] == xs[j];
      }
    }
  }

  /**
   * An emission on the data topic `<e>:<param>` (or on its error topic)
   * whose payload, after the type name, is one object with `key` set to `value`.
   */
  ghost predicate EmissionShape(em: Emission, kind: EmitKind, e: EventType, param: string, key: string, value: Value) {
    && em.topic == (if kind == EmitEventKind then DataTopic(e, param) else ErrorTopic(e, param))
    && |em.args| == 2 && em.args[1].Obj?
    && Lookup(em.args[1].props, key) == value
  }

  /** An item emission is on the item's topic and its object's `id` is the id. */
  lemma ItemEmissionShape(kind: EmitKind, e: EventType, collection: string, id: string,
                          event: seq<(string, Value)>)
    requires UniqueKeys(event) && !HasKey(event, "id")
    ensures EmissionShape(ItemEmission(kind, e, collection, id, event), kind, e, ItemParam(collection, id), "id", Str(id))
  {
    AssignLookup([("id", Str(id))], event, "id");
  }

  /**
   * `emitForEachItem(ids, method, itemEvent, collection, event)`: one emit per
   * id, in order; a falsy method throws 'no method' before any emit.
   */
  method EmitForEachItem(ids: seq<string>, kind: Option<EmitKind>, e: EventType, collection: string,
                         event: seq<(string, Value)>) returns (r: Result<seq<Emission>>)
    ensures kind.None? ==> r == Err("no method")
    ensures kind.Some? ==> r == Ok(ItemEmissions(kind.value, e, collection, ids, event))
  {
    if kind.None? {
      return Err("no method");
    }
    var out: seq<Emission> := [];
    var i := 0;
    while i < |ids|
      invariant 0 <= i <= |ids|
      invariant out == ItemEmissions(kind.value, e, collection, ids[..i], event)
    {
      ItemEmissionsSnoc(kind.value, e, collection, ids, i, event);
      out := out + [ItemEmission(kind.value, e, collection, ids[i], event)];
      i := i + 1;
    }
    assert ids[..i] == ids;
    r := Ok(out);
  }

  /** Emitting for one more id appends that id's emission. */
  lemma ItemEmissionsSnoc(kind: EmitKind, e: EventType, collection: string, ids: seq<string>, i: int,
                          event: seq<(string, Value)>)
    requires 0 <= i < |ids|
    ensures ItemEmissions(kind, e, collection, ids[..i + 1], event)
         == ItemEmissions(kind, e, collection, ids[..i], event) + [ItemEmission(kind, e, collection, ids[i], event)]
  {
    MapSnoc(id => ItemEmission(kind, e, collection, id, event), ids, i);
  }

  /**
   * `callWithEvents(method, args, info, events)`: call the adapter; when it
   * resolves, `emitEvent(...event, info, method, result)` for each event; when
   * it rejects, the same through `emitError` with the error. A method that
   * throws throws out of `callWithEvents` before any handler is attached.
   */
  function CallWithEvents(name: string, ready: bool, write: Answer, info: Value,
                          events: seq<(EventType, string)>): (r: Result<Outcome>)
    ensures r.Err? <==> ready && write.Throws?
    ensures r.Err? ==> r.error == write.error
    ensures r.Ok? ==> r.value.promise == CallAdapter(ready, write).value
    ensures r.Ok? && r.value.promise.Pending? ==> r.value.emissions == []
    ensures r.Ok? && r.value.promise.Resolved? ==>
      r.value.emissions == EventEmissions(EmitEventKind, events, [info, Str(name), r.value.promise.value])
    ensures r.Ok? && r.value.promise.Rejected? ==>
      r.value.emissions == EventEmissions(EmitErrorKind, events, [info, Str(name), Str(r.value.promise.reason)])
  {
    match CallAdapter(ready, write)
    case Err(e) => Err(e)
    case Ok(promise) =>
      match promise
      case Pending => Ok(Outcome(promise, []))
      case Resolved(v) => Ok(Outcome(promise, EventEmissions(EmitEventKind, events, [info, Str(name), v])))
      case Rejected(err) => Ok(Outcome(promise, EventEmissions(EmitErrorKind, events, [info, Str(name), Str(err)])))
  }

  function EventEmissions(kind: EmitKind, events: seq<(EventType, string)>, args: seq<Value>): (r: seq<Emission>)
    ensures |r| == |events|
    ensures forall i :: 0 <= i < |events| ==> r[i] == EmitBy(kind, events[i].0, events[i].1, args)
  {
    if events == [] then [] else [EmitBy(kind, events[0].0, events[0].1, args)] + EventEmissions(kind, events[1..], args)
  }

  // ---------------------------------------------------------------------
  // The four write operations

  /** `insert(collection, document, options, type)`: the adapter method it calls. */
  function InsertType(document: Value, typ: Option<string>): (r: string)
    ensures FieldTruthy(typ) ==> r == typ.value
    ensures !FieldTruthy(typ) ==> (r == "insertMany" <==> document.Arr?)
    ensures !FieldTruthy(typ) ==> (r == "insertOne" <==> !document.Arr?)
  {
    if FieldTruthy(typ) then typ.value
    else if document.Arr? then "insertMany" else "insertOne"
  }

  function InsertInfo(collection: string, document: Value, options: Value, typ: string): Value {
    Obj([("name", Str("insert")), ("collection", Str(collection)),
         (if typ == "insertMany" then "items" else "item", document), ("options", options)])
  }

  /**
   * The info object of `insert` holds the document under `items` exactly when
   * the adapter method is `insertMany` (for an untyped call, exactly when the
   * document is an array) and under `item` otherwise, next to its name,
   * collection and options.
   */
  lemma InsertInfoShape(collection: string, document: Value, options: Value, typ: Option<string>)
    ensures var t := InsertType(document, typ);
      var info := InsertInfo(collection, document, options, t);
      && info.Obj?
      && (HasKey(info.props, "items") <==> t == "insertMany")
      && (HasKey(info.props, "item") <==> t != "insertMany")
      && (!FieldTruthy(typ) ==> (HasKey(info.props, "items") <==> document.Arr?))
      && Lookup(info.props, if t == "insertMany" then "items" else "item") == document
      && Lookup(info.props, "name") == Str("insert")
      && Lookup(info.props, "collection") == Str(collection)
      && Lookup(info.props, "options") == options
  {
    var t := InsertType(document, typ);
    var key := if t == "insertMany" then "items" else "item";
    var p3 := [("options", options)];
    var p2 := [(key, document)] + p3;
    var p1 := [("collection", Str(collection))] + p2;
    var p0 := [("name", Str("insert"))] + p1;
    assert InsertInfo(collection, document, options, t).props == p0;
    assert p0[1..] == p1 && p1[1..] == p2 && p2[1..] == p3 && p3[1..] == [];
    assert "items" != "item";
    forall k
      ensures HasKey(p0, k) <==> k in {"name", "collection", key, "options"}
      ensures Lookup(p0, k) == if k == "name" then Str("insert") else if k == "collection" then Str(collection)
                               else if k == key then document else if k == "options" then options else Undefined
    {
      assert HasKey(p3, k) <==> k == "options";
      assert HasKey(p2, k) <==> k == key || k == "options";
      assert HasKey(p1, k) <==> k == "collection" || k == key || k == "options";
      assert Lookup(p2, k) == if k == key then document else Lookup(p3, k);
      assert Lookup(p1, k) == if k == "collection" then Str(collection) else Lookup(p2, k);
    }
  }

  /** `insert`: `callWithEvents` with the chosen method, so a throwing adapter method makes `insert` throw. */
  function InsertDocument(collection: string, document: Value, options: Value, typ: Option<string>,
                          ready: bool, write: Answer): Result<Outcome>
  {
    var t := InsertType(document, typ);
    CallWithEvents(t, ready, write, InsertInfo(collection, document, options, t), [(Insert, collection)])
  }

  function UpdateInfo(collection: string, item: Doc, filter: Filter, update: Value, options: Value): Value {
    Obj([("name", Str("update")), ("collection", Str(collection)), ("item", item.body), ("id", Str(item.id)),
         ("filter", filter.query), ("update", update), ("options", options)])
  }

  /** The text of the `Error` thrown when nothing matches, as `error + ''` gives it. */
  function NotFoundMessage(collection: string, filter: Filter): string {
    "Error: " + Json(Arr([Str(collection), filter.query])) + " not found"
  }

  /**
   * `updateOne`: read the first match; none is an error; otherwise write and
   * publish on the collection and on that item. A read that throws makes
   * `updateOne` throw; a write that throws does so inside the read's `then`
   * handler, so it rejects the returned promise.
   */
  function UpdateOne(store: Store, collection: string, filter: Filter, update: Value, options: Value,
                     ready: bool, read: Read, write: Answer): Result<Outcome>
  {
    if !ready then Ok(Outcome(Pending, []))
    else
      match read
      case ReadThrows(e) => Err(e)
      case ReadRejects(e) => Ok(Outcome(Rejected(e), []))
      case ReadResolves =>
        var found := Matching(Docs(store, collection), filter);
        if found == [] then Ok(Outcome(Rejected(NotFoundMessage(collection, filter)), []))
        else
          var item := found[0];
          match CallWithEvents("updateOne", ready, write, UpdateInfo(collection, item, filter, update, options),
                               [(UpdateCollection, collection), (UpdateItem, ItemParam(collection, item.id))])
          case Err(e) => Ok(Outcome(Rejected(e), []))
          case Ok(o) => Ok(o)
  }

  /** The event object of `updateMany` (with `update`) or `remove` (without). */
  function ManyEvent(name: string, collection: string, update: Option<Value>, filter: Filter,
                     options: Value, result: Value): seq<(string, Value)>
  {
    [("name", Str(name)), ("collection", Str(collection))] + ManyEventTail(update, filter, options, result)
  }

  /** The properties of the many-write event after its name and collection. */
  function ManyEventTail(update: Option<Value>, filter: Filter, options: Value, result: Value): seq<(string, Value)> {
    (if update.Some? then [("update", update.value)] else [])
      + [("filter", filter.query), ("options", options), ("result", result)]
  }

  /**
   * Shared shape of `updateMany` and `remove`: read the matching ids, call
   * the adapter, then publish one collection event carrying every id and one
   * item event per id, on the data topics or on the error topics. Both run
   * inside a promise executor and a `then` handler, so a read or a write
   * that throws rejects the returned promise instead of throwing.
   */
  function WriteMany(name: string, collectionKind: EventType, itemKind: EventType,
                     store: Store, collection: string, filter: Filter, update: Option<Value>, options: Value,
                     ready: bool, read: Read, write: Answer): Outcome
  {
    if !ready then Outcome(Pending, [])
    else if !read.ReadResolves? then Outcome(Rejected(read.error), [])
    else
      var ids := Ids(Matching(Docs(store, collection), filter));
      match CallAdapter(ready, write)
      case Err(e) => Outcome(Rejected(e), [])
      case Ok(Pending) => Outcome(Pending, [])
      case Ok(Resolved(v)) =>
        Outcome(Resolved(v), ManyEmissions(EmitEventKind, collectionKind, itemKind, collection, ids,
                                           ManyEvent(name, collection, update, filter, options, v)))
      case Ok(Rejected(err)) =>
        Outcome(Rejected(err), ManyEmissions(EmitErrorKind, collectionKind, itemKind, collection, ids,
                                             ManyEvent(name, collection, update, filter, options, Str(err))))
  }

  /** The collection event with every id, then `emitForEachItem`. */
  function ManyEmissions(kind: EmitKind, collectionKind: EventType, itemKind: EventType, collection: string,
                         ids: seq<string>, event: seq<(string, Value)>): seq<Emission>
  {
    [HeadEmission(kind, collectionKind, collection, ids, event)] + ItemEmissions(kind, itemKind, collection, ids, event)
  }

  /** The collection emission of a many-write: the event with `ids` set first. */
  function HeadEmission(kind: EmitKind, collectionKind: EventType, collection: string,
                        ids: seq<string>, event: seq<(string, Value)>): Emission
  {
    EmitBy(kind, collectionKind, collection, [Obj(Assign([("ids", Arr(StrList(ids)))], event))])
  }

  function UpdateMany(store: Store, collection: string, filter: Filter, update: Value, options: Value,
                      ready: bool, read: Read, write: Answer): Outcome
  {
    WriteMany("update", UpdateCollection, UpdateItem, store, collection, filter, Some(update), options,
              ready, read, write)
  }

  function Remove(store: Store, collection: string, filter: Filter, options: Value,
                  ready: bool, read: Read, write: Answer): Outcome
  {
    WriteMany("remove", RemoveCollection, RemoveItem, store, collection, filter, None, options,
              ready, read, write)
  }

  // ---------------------------------------------------------------------
  // What the writes publish

  /** An emission on no error topic. */
  ghost predicate NotOnError(em: Emission) {
    forall e, p :: em.topic != ErrorTopic(e, p)
  }

  /** An emission on no data topic. */
  ghost predicate NotOnData(em: Emission) {
    forall e, p :: em.topic != DataTopic(e, p)
  }

  /** Nothing on any error topic. */
  ghost predicate NoErrorTopic(ems: seq<Emission>) {
    forall i :: 0 <= i < |ems| ==> NotOnError(ems[i])
  }

  /** Nothing on any data topic. */
  ghost predicate NoDataTopic(ems: seq<Emission>) {
    forall i :: 0 <= i < |ems| ==> NotOnData(ems[i])
  }

  /** `emitEvent` never lands on an error topic and `emitError` never on a data topic. */
  lemma EmitByTopics(kind: EmitKind, e0: EventType, param: string, args: seq<Value>)
    ensures kind == EmitEventKind ==> NotOnError(EmitBy(kind, e0, param, args))
    ensures kind == EmitErrorKind ==> NotOnData(EmitBy(kind, e0, param, args))
  {
    var em := EmitBy(kind, e0, param, args);
    forall e, p ensures kind == EmitEventKind ==> em.topic != ErrorTopic(e, p) {
      DataErrorDisjoint(e0, param, e, p);
    }
    forall e, p ensures kind == EmitErrorKind ==> em.topic != DataTopic(e, p) {
      DataErrorDisjoint(e, p, e0, param);
    }
  }

  lemma {:induction false} EventEmissionsTopics(kind: EmitKind, events: seq<(EventType, string)>, args: seq<Value>)
    ensures kind == EmitEventKind ==> NoErrorTopic(EventEmissions(kind, events, args))
    ensures kind == EmitErrorKind ==> NoDataTopic(EventEmissions(kind, events, args))
  {
    var ems := EventEmissions(kind, events, args);
    forall i | 0 <= i < |ems|
      ensures kind == EmitEventKind ==> NotOnError(ems[i])
      ensures kind == EmitErrorKind ==> NotOnData(ems[i])
    {
      EmitByTopics(kind, events[i].0, events[i].1, args);
    }
  }

  lemma {:induction false} ItemEmissionsTopics(kind: EmitKind, e0: EventType, collection: string, ids: seq<string>,
                                               event: seq<(string, Value)>)
    ensures kind == EmitEventKind ==> NoErrorTopic(ItemEmissions(kind, e0, collection, ids, event))
    ensures kind == EmitErrorKind ==> NoDataTopic(ItemEmissions(kind, e0, collection, ids, event))
  {
    var ems := ItemEmissions(kind, e0, collection, ids, event);
    forall i | 0 <= i < |ems|
      ensures kind == EmitEventKind ==> NotOnError(ems[i])
      ensures kind == EmitErrorKind ==> NotOnData(ems[i])
    {
      EmitByTopics(kind, e0, ItemParam(collection, ids[i]), [Obj(Assign([("id", Str(ids[i]))], event))]);
    }
  }

  /**
   * `callWithEvents` emits nothing while the promise is pending, only on
   * data topics once it resolved and only on error topics once it rejected;
   * a method that throws leaves no outcome, and so no emission, at all.
   */
  lemma CallWithEventsTopics(name: string, ready: bool, write: Answer, info: Value,
                             events: seq<(EventType, string)>)
    ensures var r := CallWithEvents(name, ready, write, info, events);
      && (ready && write.Throws? ==> r == Err(write.error))
      && (r.Ok? ==> PublishesBySettlement(r.value))
  {
    var r := CallWithEvents(name, ready, write, info, events);
    if r.Ok? {
      match r.value.promise {
        case Pending =>
        case Resolved(v) => EventEmissionsTopics(EmitEventKind, events, [info, Str(name), v]);
        case Rejected(err) => EventEmissionsTopics(EmitErrorKind, events, [info, Str(name), Str(err)]);
      }
    }
  }

  /**
   * `insert` publishes one event on `insert:<collection>` (or on
   * `insert-error:<collection>`) and only once the adapter has settled; the
   * event carries the info object, the adapter method and the result or
   * error. An adapter method that throws makes `insert` itself throw, and
   * nothing is published.
   */
  lemma InsertPublishes(collection: string, document: Value, options: Value, typ: Option<string>,
                        ready: bool, write: Answer)
    ensures var r := InsertDocument(collection, document, options, typ, ready, write);
      && (!ready ==> r == Ok(Outcome(Pending, [])))
      && (ready && write.Throws? ==> r == Err(write.error))
      && (ready && write.Resolves? ==>
            r.Ok? && r.value.promise == Resolved(write.value) && |r.value.emissions| == 1
            && r.value.emissions[0].topic == DataTopic(Insert, collection))
      && (ready && write.Rejects? ==>
            r.Ok? && r.value.promise == Rejected(write.error) && |r.value.emissions| == 1
            && r.value.emissions[0].topic == ErrorTopic(Insert, collection))
      && (ready && !write.Throws? ==>
            var t := InsertType(document, typ);
            r.Ok? && |r.value.emissions| == 1
            && r.value.emissions[0].args[1..]
                 == [InsertInfo(collection, document, options, t), Str(t),
                     if write.Resolves? then write.value else Str(write.error)])
  {
  }

  /**
   * `updateOne` with no matching document rejects with the error
   * `JSON.stringify([collection, filter]) + ' not found'` and publishes nothing;
   * with one, it publishes on `update-collection:<c>` and on
   * `update-item:<c>:<id>` of the first match (or their `-error` topics).
   * A throwing read makes `updateOne` throw; a throwing write rejects.
   */
  lemma UpdateOnePublishes(store: Store, collection: string, filter: Filter, update: Value, options: Value,
                           ready: bool, read: Read, write: Answer)
    ensures var r := UpdateOne(store, collection, filter, update, options, ready, read, write);
      var found := Matching(Docs(store, collection), filter);
      && (!ready ==> r == Ok(Outcome(Pending, [])))
      && (ready && read.ReadThrows? ==> r == Err(read.error))
      && (ready && read.ReadRejects? ==> r == Ok(Outcome(Rejected(read.error), [])))
      && (ready && read.ReadResolves? && found == [] ==>
            r == Ok(Outcome(Rejected(NotFoundMessage(collection, filter)), [])))
      && (ready && read.ReadResolves? && found != [] && write.Throws? ==>
            r == Ok(Outcome(Rejected(write.error), [])))
      && (ready && read.ReadResolves? && found != [] && write.Resolves? ==>
            r.Ok? && r.value.promise == Resolved(write.value)
            && |r.value.emissions| == 2
            && r.value.emissions[0].topic == DataTopic(UpdateCollection, collection)
            && r.value.emissions[1].topic == DataTopic(UpdateItem, ItemParam(collection, found[0].id))
            && NoErrorTopic(r.value.emissions))
      && (ready && read.ReadResolves? && found != [] && write.Rejects? ==>
            r.Ok? && r.value.promise == Rejected(write.error)
            && |r.value.emissions| == 2
            && r.value.emissions[0].topic == ErrorTopic(UpdateCollection, collection)
            && r.value.emissions[1].topic == ErrorTopic(UpdateItem, ItemParam(collection, found[0].id))
            && NoDataTopic(r.value.emissions))
  {
    var found := Matching(Docs(store, collection), filter);
    if ready && read.ReadResolves? && found != [] {
      var item := found[0];
      CallWithEventsTopics("updateOne", ready, write, UpdateInfo(collection, item, filter, update, options),
                           [(UpdateCollection, collection), (UpdateItem, ItemParam(collection, item.id))]);
    }
  }

  /** An outcome that publishes only once settled, and only on the topics of its settlement. */
  ghost predicate PublishesBySettlement(o: Outcome) {
    && (o.promise.Pending? ==> o.emissions == [])
    && (o.promise.Resolved? ==> NoErrorTopic(o.emissions))
    && (o.promise.Rejected? ==> NoDataTopic(o.emissions))
  }

  lemma WriteManyBySettlement(name: string, collectionKind: EventType, itemKind: EventType,
                              store: Store, collection: string, filter: Filter, update: Option<Value>,
                              options: Value, ready: bool, read: Read, write: Answer)
    ensures PublishesBySettlement(WriteMany(name, collectionKind, itemKind, store, collection, filter, update,
                                            options, ready, read, write))
  {
    WriteManyPublishes(name, collectionKind, itemKind, store, collection, filter, update, options,
                       ready, read, write);
    if ready && read.ReadResolves? && !write.Throws? {
      var ids := Ids(Matching(Docs(store, collection), filter));
      var kind := if write.Resolves? then EmitEventKind else EmitErrorKind;
      var event := ManyEvent(name, collection, update, filter, options,
                             if write.Resolves? then write.value else Str(write.error));
      ManyEmissionsTopics(kind, collectionKind, itemKind, collection, ids, event);
    }
  }

  /**
   * Every write publishes only once the adapter has settled, only on data
   * topics when it resolved and only on `-error` topics when it rejected.
   * A server that is not ready calls no adapter (`callAdapter`'s dead
   * promise): every write then stays pending and publishes nothing. An
   * adapter that throws publishes nothing either: `insert` throws, and the
   * other writes reject.
   */
  lemma WritesPublishBySettlement(store: Store, collection: string, document: Value, typ: Option<string>,
                                  filter: Filter, update: Value, options: Value,
                                  ready: bool, read: Read, write: Answer)
    ensures var r := InsertDocument(collection, document, options, typ, ready, write);
      r.Ok? ==> PublishesBySettlement(r.value)
    ensures var r := UpdateOne(store, collection, filter, update, options, ready, read, write);
      r.Ok? ==> PublishesBySettlement(r.value)
    ensures PublishesBySettlement(UpdateMany(store, collection, filter, update, options, ready, read, write))
    ensures PublishesBySettlement(Remove(store, collection, filter, options, ready, read, write))
    ensures !ready ==>
      && InsertDocument(collection, document, options, typ, ready, write) == Ok(Outcome(Pending, []))
      && UpdateOne(store, collection, filter, update, options, ready, read, write) == Ok(Outcome(Pending, []))
      && UpdateMany(store, collection, filter, update, options, ready, read, write) == Outcome(Pending, [])
      && Remove(store, collection, filter, options, ready, read, write) == Outcome(Pending, [])
    ensures ready && write.Throws? ==>
      && InsertDocument(collection, document, options, typ, ready, write) == Err(write.error)
      && (read.ReadResolves? ==>
            && UpdateMany(store, collection, filter, update, options, ready, read, write)
                 == Outcome(Rejected(write.error), [])
            && Remove(store, collection, filter, options, ready, read, write) == Outcome(Rejected(write.error), []))
  {
    var t := InsertType(document, typ);
    CallWithEventsTopics(t, ready, write, InsertInfo(collection, document, options, t), [(Insert, collection)]);
    UpdateOnePublishes(store, collection, filter, update, options, ready, read, write);
    WriteManyBySettlement("update", UpdateCollection, UpdateItem, store, collection, filter, Some(update), options,
                          ready, read, write);
    WriteManyBySettlement("remove", RemoveCollection, RemoveItem, store, collection, filter, None, options,
                          ready, read, write);
  }

  /** Adding a property in front of an object whose keys are among `keys`. */
  lemma ConsKeys(p: (string, Value), rest: seq<(string, Value)>, keys: set<string>)
    requires UniqueKeys(rest) && p.0 !in keys
    requires forall k :: HasKey(rest, k) ==> k in keys
    ensures UniqueKeys([p] + rest)
    ensures forall k :: HasKey([p] + rest, k) ==> k in keys + {p.0}
  {
    assert ([p] + rest)[1..] == rest;
  }

  /** The keys after the name and collection are distinct and among `update`, `filter`, `options`, `result`. */
  lemma ManyEventTailKeys(update: Option<Value>, filter: Filter, options: Value, result: Value)
    ensures UniqueKeys(ManyEventTail(update, filter, options, result))
    ensures forall k :: HasKey(ManyEventTail(update, filter, options, result), k) ==>
      k in {"update", "filter", "options", "result"}
  {
    var t1: seq<(string, Value)> := [("result", result)];
    ConsKeys(("result", result), [], {});
    var t2 := [("options", options)] + t1;
    ConsKeys(("options", options), t1, {"result"});
    var t3 := [("filter", filter.query)] + t2;
    ConsKeys(("filter", filter.query), t2, {"result", "options"});
    if update.Some? {
      ConsKeys(("update", update.value), t3, {"result", "options", "filter"});
      assert ManyEventTail(update, filter, options, result) == [("update", update.value)] + t3;
    } else {
      assert ManyEventTail(update, filter, options, result) == t3;
    }
  }

  /** The keys of the many-write event are distinct and never `ids` or `id`. */
  lemma ManyEventKeys(name: string, collection: string, update: Option<Value>, filter: Filter,
                      options: Value, result: Value)
    ensures UniqueKeys(ManyEvent(name, collection, update, filter, options, result))
    ensures !HasKey(ManyEvent(name, collection, update, filter, options, result), "ids")
    ensures !HasKey(ManyEvent(name, collection, update, filter, options, result), "id")
  {
    var tail := ManyEventTail(update, filter, options, result);
    var keys := {"update", "filter", "options", "result"};
    ManyEventTailKeys(update, filter, options, result);
    var t5 := [("collection", Str(collection))] + tail;
    ConsKeys(("collection", Str(collection)), tail, keys);
    var t6 := [("name", Str(name))] + t5;
    ConsKeys(("name", Str(name)), t5, keys + {"collection"});
    assert ManyEvent(name, collection, update, filter, options, result) == t6;
  }

  /**
   * The emissions of a many-write: the collection event carries every id,
   * then one item event per id, in order, with `id` set, all on data topics
   * or all on error topics.
   */
  ghost predicate ManyShape(ems: seq<Emission>, kind: EmitKind, collectionKind: EventType, itemKind: EventType,
                            collection: string, ids: seq<string>)
  {
    && |ems| == 1 + |ids|
    && EmissionShape(ems[0], kind, collectionKind, collection, "ids", Arr(StrList(ids)))
    && (forall i :: 0 <= i < |ids| ==>
          EmissionShape(ems[1 + i], kind, itemKind, ItemParam(collection, ids[i]), "id", Str(ids[i])))
    && (kind == EmitEventKind ==> NoErrorTopic(ems))
    && (kind == EmitErrorKind ==> NoDataTopic(ems))
  }

  /** The collection emission is on the collection's topic and carries every id. */
  lemma HeadEmissionShape(kind: EmitKind, collectionKind: EventType, collection: string,
                          ids: seq<string>, event: seq<(string, Value)>)
    requires UniqueKeys(event) && !HasKey(event, "ids")
    ensures EmissionShape(HeadEmission(kind, collectionKind, collection, ids, event),
                          kind, collectionKind, collection, "ids", Arr(StrList(ids)))
  {
    AssignLookup([("ids", Arr(StrList(ids)))], event, "ids");
  }

  /** A many-write publishes only on data topics or only on error topics. */
  lemma {:induction false} ManyEmissionsTopics(kind: EmitKind, collectionKind: EventType, itemKind: EventType,
                                               collection: string, ids: seq<string>, event: seq<(string, Value)>)
    ensures kind == EmitEventKind ==> NoErrorTopic(ManyEmissions(kind, collectionKind, itemKind, collection, ids, event))
    ensures kind == EmitErrorKind ==> NoDataTopic(ManyEmissions(kind, collectionKind, itemKind, collection, ids, event))
  {
    var ems := ManyEmissions(kind, collectionKind, itemKind, collection, ids, event);
    var items := ItemEmissions(kind, itemKind, collection, ids, event);
    EmitByTopics(kind, collectionKind, collection, [Obj(Assign([("ids", Arr(StrList(ids)))], event))]);
    ItemEmissionsTopics(kind, itemKind, collection, ids, event);
    forall i | 0 <= i < |ems|
      ensures kind == EmitEventKind ==> NotOnError(ems[i])
      ensures kind == EmitErrorKind ==> NotOnData(ems[i])
    {
      if i > 0 {
        assert ems[i] == items[i - 1];
      }
    }
  }

  /** Every item emission is on its item's topic with its `id` set. */
  lemma ItemEmissionsShape(kind: EmitKind, itemKind: EventType, collection: string, ids: seq<string>,
                           event: seq<(string, Value)>)
    requires UniqueKeys(event) && !HasKey(event, "id")
    ensures var items := ItemEmissions(kind, itemKind, collection, ids, event);
      forall i :: 0 <= i < |ids| ==>
        EmissionShape(items[i], kind, itemKind, ItemParam(collection, ids[i]), "id", Str(ids[i]))
  {
    forall i | 0 <= i < |ids|
      ensures EmissionShape(ItemEmission(kind, itemKind, collection, ids[i], event),
                            kind, itemKind, ItemParam(collection, ids[i]), "id", Str(ids[i]))
    {
      ItemEmissionShape(kind, itemKind, collection, ids[i], event);
    }
  }

  lemma {:induction false} ManyEmissionsShape(kind: EmitKind, collectionKind: EventType, itemKind: EventType,
                                              collection: string, ids: seq<string>, event: seq<(string, Value)>)
    requires UniqueKeys(event) && !HasKey(event, "ids") && !HasKey(event, "id")
    ensures ManyShape(ManyEmissions(kind, collectionKind, itemKind, collection, ids, event),
                      kind, collectionKind, itemKind, collection, ids)
  {
    var ems := ManyEmissions(kind, collectionKind, itemKind, collection, ids, event);
    var items := ItemEmissions(kind, itemKind, collection, ids, event);
    assert ems[1..] == items;
    HeadEmissionShape(kind, collectionKind, collection, ids, event);
    ItemEmissionsShape(kind, itemKind, collection, ids, event);
    forall i | 0 <= i < |ids|
      ensures EmissionShape(ems[1 + i], kind, itemKind, ItemParam(collection, ids[i]), "id", Str(ids[i]))
    {
      assert ems[1 + i] == items[i];
    }
    ManyEmissionsTopics(kind, collectionKind, itemKind, collection, ids, event);
  }

  /**
   * `updateMany` and `remove`: a server that is not ready publishes nothing
   * and stays pending; a failed or throwing read, or a throwing write,
   * rejects with its error and publishes nothing; otherwise the promise is
   * the adapter's and the emissions have the shape of `ManyEmissionsShape`,
   * on the data topics when the write succeeds and on the error topics when
   * it fails.
   */
  lemma WriteManyPublishes(name: string, collectionKind: EventType, itemKind: EventType,
                           store: Store, collection: string, filter: Filter, update: Option<Value>,
                           options: Value, ready: bool, read: Read, write: Answer)
    ensures var o := WriteMany(name, collectionKind, itemKind, store, collection, filter, update, options,
                               ready, read, write);
      var ids := Ids(Matching(Docs(store, collection), filter));
      && (!ready ==> o == Outcome(Pending, []))
      && (ready && !read.ReadResolves? ==> o == Outcome(Rejected(read.error), []))
      && (ready && read.ReadResolves? && write.Throws? ==> o == Outcome(Rejected(write.error), []))
      && (ready && read.ReadResolves? && !write.Throws? ==>
            && o.promise == (if write.Resolves? then Resolved(write.value) else Rejected(write.error))
            && o.emissions == ManyEmissions(if write.Resolves? then EmitEventKind else EmitErrorKind,
                                            collectionKind, itemKind, collection, ids,
                                            ManyEvent(name, collection, update, filter, options,
                                                      if write.Resolves? then write.value else Str(write.error))))
  {
    if ready && read.ReadResolves? {
      var ids := Ids(Matching(Docs(store, collection), filter));
      if write.Resolves? {
        var event := ManyEvent(name, collection, update, filter, options, write.value);
        assert WriteMany(name, collectionKind, itemKind, store, collection, filter, update, options,
                         ready, read, write)
            == Outcome(Resolved(write.value), ManyEmissions(EmitEventKind, collectionKind, itemKind, collection, ids, event));
      } else if write.Rejects? {
        var event := ManyEvent(name, collection, update, filter, options, Str(write.error));
        assert WriteMany(name, collectionKind, itemKind, store, collection, filter, update, options,
                         ready, read, write)
            == Outcome(Rejected(write.error), ManyEmissions(EmitErrorKind, collectionKind, itemKind, collection, ids, event));
      }
    }
  }

  /** `updateMany` after a successful read: every pre-read id is published, on the collection and on its item. */
  lemma UpdateManyPublishes(store: Store, collection: string, filter: Filter, update: Value, options: Value,
                            read: Read, write: Answer)
    ensures read.ReadResolves? && !write.Throws? ==>
      var o := UpdateMany(store, collection, filter, update, options, true, read, write);
      ManyShape(o.emissions, if write.Resolves? then EmitEventKind else EmitErrorKind,
                UpdateCollection, UpdateItem, collection, Ids(Matching(Docs(store, collection), filter)))
  {
    if read.ReadResolves? && !write.Throws? {
      var kind := if write.Resolves? then EmitEventKind else EmitErrorKind;
      var result := if write.Resolves? then write.value else Str(write.error);
      var event := ManyEvent("update", collection, Some(update), filter, options, result);
      var ids := Ids(Matching(Docs(store, collection), filter));
      WriteManyPublishes("update", UpdateCollection, UpdateItem, store, collection, filter, Some(update), options,
                         true, read, write);
      assert UpdateMany(store, collection, filter, update, options, true, read, write).emissions
        == ManyEmissions(kind, UpdateCollection, UpdateItem, collection, ids, event);
      ManyEventKeys("update", collection, Some(update), filter, options, result);
      ManyEmissionsShape(kind, UpdateCollection, UpdateItem, collection, ids, event);
    }
  }

  /** `remove` after a successful read: the same shape, on the remove topics. */
  lemma RemovePublishes(store: Store, collection: string, filter: Filter, options: Value,
                        read: Read, write: Answer)
    ensures read.ReadResolves? && !write.Throws? ==>
      var o := Remove(store, collection, filter, options, true, read, write);
      ManyShape(o.emissions, if write.Resolves? then EmitEventKind else EmitErrorKind,
                RemoveCollection, RemoveItem, collection, Ids(Matching(Docs(store, collection), filter)))
  {
    if read.ReadResolves? && !write.Throws? {
      var kind := if write.Resolves? then EmitEventKind else EmitErrorKind;
      var result := if write.Resolves? then write.value else Str(write.error);
      var event := ManyEvent("remove", collection, None, filter, options, result);
      var ids := Ids(Matching(Docs(store, collection), filter));
      WriteManyPublishes("remove", RemoveCollection, RemoveItem, store, collection, filter, None, options,
                         true, read, write);
      assert Remove(store, collection, filter, options, true, read, write).emissions
        == ManyEmissions(kind, RemoveCollection, RemoveItem, collection, ids, event);
      ManyEventKeys("remove", collection, None, filter, options, result);
      ManyEmissionsShape(kind, RemoveCollection, RemoveItem, collection, ids, event);
    }
  }
}
