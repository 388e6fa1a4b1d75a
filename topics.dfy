/**
 * Topic names of the in-process event bus.
 *
 * Every topic the server uses is `<name>:<param>`: the five event kinds of the
 * eventTypes table and their `-error` variants, `listen:<token>` for a
 * session's delivery topic and `listen-stop:<token>,<json>` for the key that
 * stops a collection listen. Item events use `<collection>:<id>` as param.
 * Because no name contains a colon, a topic determines its name and param.
 */
module Topics {

  import opened Wrappers
  import opened JsValues

  /** The keys of the eventTypes table. */
  datatype EventType = UpdateCollection | UpdateItem | RemoveCollection | RemoveItem | Insert

  /** The values of the eventTypes table. */
  function TypeName(e: EventType): string {
    match e
    case UpdateCollection => "update-collection"
    case UpdateItem => "update-item"
    case RemoveCollection => "remove-collection"
    case RemoveItem => "remove-item"
    case Insert => "insert"
  }

  /** The event name `emitError` publishes under. */
  function ErrorName(e: EventType): string {
    TypeName(e) + "-error"
  }

  /** One `emit(topic, ...args)` call. */
  datatype Emission = Emission(topic: string, args: seq<Value>)

  const ListenName := "listen"
  const ListenStopName := "listen-stop"

  function Topic(name: string, param: string): string {
    name + ":" + param
  }

  /** The param of an item topic, `collection + ':' + id`. */
  function ItemParam(collection: string, id: string): string {
    collection + ":" + id
  }

  function DataTopic(e: EventType, param: string): string {
    Topic(TypeName(e), param)
  }

  function ErrorTopic(e: EventType, param: string): string {
    Topic(ErrorName(e), param)
  }

  /** `'listen:' + token`, the single delivery topic of a session. */
  function ListenTopic(token: string): string {
    Topic(ListenName, token)
  }

  /** `'listen-stop:' + token + ',' + JSON.stringify([collection, id || '', filter || ''])`. */
  function StopKey(token: string, collection: string, id: string, filter: string): string {
    Topic(ListenStopName, token + "," + Json(Arr([Str(collection), Str(id), Str(filter)])))
  }

  /** The kinds `onCollectionTouched` subscribes to, in its order. */
  const CollectionKinds: seq<EventType> := [UpdateCollection, RemoveCollection, Insert]

  /** The kinds `onItemTouched` subscribes to, in its order. */
  const ItemKinds: seq<EventType> := [RemoveItem, UpdateItem]

  function CollectionTopics(collection: string): seq<string> {
    [DataTopic(UpdateCollection, collection), DataTopic(RemoveCollection, collection), DataTopic(Insert, collection)]
  }

  function ItemTopics(collection: string, id: string): seq<string> {
    [DataTopic(RemoveItem, ItemParam(collection, id)), DataTopic(UpdateItem, ItemParam(collection, id))]
  }

  // ---------------------------------------------------------------------

  predicate ColonFree(s: string) {
    forall i :: 0 <= i < |s| ==> s[i] != ':'
  }

  lemma NamesColonFree(e: EventType)
    ensures ColonFree(TypeName(e)) && ColonFree(ErrorName(e))
    ensures ColonFree(ListenName) && ColonFree(ListenStopName)
  {
    TypeNameColonFree(e);
    ColonFreeConcat(TypeName(e), "-error");
  }

  lemma TypeNameColonFree(e: EventType)
    ensures ColonFree(TypeName(e))
  {
    match e
    case UpdateCollection =>
    case UpdateItem =>
    case RemoveCollection =>
    case RemoveItem =>
    case Insert =>
  }

  lemma ColonFreeConcat(a: string, b: string)
    requires ColonFree(a) && ColonFree(b)
    ensures ColonFree(a + b)
  {
    forall i | 0 <= i < |a + b| ensures (a + b)[i] != ':' {
      if i >= |a| {
        assert (a + b)[i] == b[i - |a|];
      }
    }
  }

  lemma ColonAt(a: string, s: string, i: nat)
    ensures i < |a| ==> (a + ":" + s)[i] == a[i]
    ensures (a + ":" + s)[|a|] == ':'
  {
  }

  lemma LastChars(e: EventType)
    ensures TypeName(e)[|TypeName(e)| - 1] != 'r'
    ensures ErrorName(e)[|ErrorName(e)| - 1] == 'r'
  {
  }

  /** A colon-free name is recovered from `name:param`, and so is the param. */
  lemma SplitAtColon(a: string, s: string, b: string, t: string)
    requires ColonFree(a) && ColonFree(b)
    requires a + ":" + s == b + ":" + t
    ensures a == b && s == t
  {
    var x := a + ":" + s;
    ColonAt(a, s, |b|);
    ColonAt(b, t, |a|);
    if |a| < |b| {
      assert false;
    } else if |b| < |a| {
      assert false;
    }
    assert a == x[..|a|];
    assert s == x[|a| + 1..];
  }

  /** No two names of the bus coincide: the five kinds, their error names and the two listen names. */
  lemma NamesDistinct(e: EventType, f: EventType)
    ensures TypeName(e) == TypeName(f) <==> e == f
    ensures ErrorName(e) == ErrorName(f) <==> e == f
    ensures TypeName(e) != ErrorName(f)
    ensures TypeName(e) != ListenName && TypeName(e) != ListenStopName
    ensures ErrorName(e) != ListenName && ErrorName(e) != ListenStopName
  {
    LastChars(e);
    LastChars(f);
    if ErrorName(e) == ErrorName(f) {
      assert TypeName(e) == ErrorName(e)[..|TypeName(e)|];
      assert TypeName(f) == ErrorName(f)[..|TypeName(f)|];
    }
  }

  lemma DataTopicInjective(e: EventType, p: string, f: EventType, q: string)
    ensures DataTopic(e, p) == DataTopic(f, q) <==> e == f && p == q
  {
    if DataTopic(e, p) == DataTopic(f, q) {
      NamesColonFree(e);
      NamesColonFree(f);
      SplitAtColon(TypeName(e), p, TypeName(f), q);
      NamesDistinct(e, f);
    }
  }

  /** Failures are published on topics no data subscription uses. */
  lemma DataErrorDisjoint(e: EventType, p: string, f: EventType, q: string)
    ensures DataTopic(e, p) != ErrorTopic(f, q)
  {
    if DataTopic(e, p) == ErrorTopic(f, q) {
      NamesColonFree(e);
      NamesColonFree(f);
      SplitAtColon(TypeName(e), p, ErrorName(f), q);
      NamesDistinct(e, f);
    }
  }

  /** Delivery and stop topics never coincide with data or error topics. */
  lemma ListenTopicsDisjoint(token: string, stopToken: string, e: EventType, p: string, c: string, id: string, filter: string)
    ensures ListenTopic(token) != DataTopic(e, p) && ListenTopic(token) != ErrorTopic(e, p)
    ensures StopKey(stopToken, c, id, filter) != DataTopic(e, p) && StopKey(stopToken, c, id, filter) != ErrorTopic(e, p)
    ensures ListenTopic(token) != StopKey(stopToken, c, id, filter)
  {
    var rest := stopToken + "," + Json(Arr([Str(c), Str(id), Str(filter)]));
    NamesDistinct(e, e);
    NamesColonFree(e);
    if ListenTopic(token) == DataTopic(e, p) { SplitAtColon(ListenName, token, TypeName(e), p); }
    if ListenTopic(token) == ErrorTopic(e, p) { SplitAtColon(ListenName, token, ErrorName(e), p); }
    if StopKey(stopToken, c, id, filter) == DataTopic(e, p) { SplitAtColon(ListenStopName, rest, TypeName(e), p); }
    if StopKey(stopToken, c, id, filter) == ErrorTopic(e, p) { SplitAtColon(ListenStopName, rest, ErrorName(e), p); }
    if ListenTopic(token) == StopKey(stopToken, c, id, filter) {
      SplitAtColon(ListenName, token, ListenStopName, rest);
    }
  }

  /**
   * `onCollectionTouched(c)` covers exactly the update, remove and insert
   * topics of collection c: no item topic and no other collection.
   */
  lemma CollectionTopicsExact(c: string, e: EventType, p: string)
    ensures DataTopic(e, p) in CollectionTopics(c) <==> p == c && e in CollectionKinds
  {
    DataTopicInjective(e, p, UpdateCollection, c);
    DataTopicInjective(e, p, RemoveCollection, c);
    DataTopicInjective(e, p, Insert, c);
  }

  /**
   * `onItemTouched(c, i)` covers exactly the update and remove topics of the
   * item param `c:i`.
   */
  lemma ItemTopicsExact(c: string, i: string, e: EventType, p: string)
    ensures DataTopic(e, p) in ItemTopics(c, i) <==> p == ItemParam(c, i) && e in ItemKinds
  {
    DataTopicInjective(e, p, RemoveItem, ItemParam(c, i));
    DataTopicInjective(e, p, UpdateItem, ItemParam(c, i));
  }

  /** For colon-free collection names an item param names one item of one collection. */
  lemma ItemParamInjective(c: string, i: string, c': string, i': string)
    requires ColonFree(c) && ColonFree(c')
    ensures ItemParam(c, i) == ItemParam(c', i') <==> c == c' && i == i'
  {
    if ItemParam(c, i) == ItemParam(c', i') {
      SplitAtColon(c, i, c', i');
    }
  }

  /** With a colon inside a collection name two different items share a topic. */
  lemma ItemParamAmbiguous()
    ensures ItemParam("a:b", "c") == ItemParam("a", "b:c")
    ensures ItemTopics("a:b", "c") == ItemTopics("a", "b:c")
  {
    assert "a:b" + ":" + "c" == "a" + ":" + "b:c";
  }
}
