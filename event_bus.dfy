/**
 * The in-process event bus of the server (`on`, `emit` and the
 * `on*Touched` helpers of src/momentum-server.js over a Node EventEmitter).
 *
 * The emitter is a multimap from topic to the callbacks registered on it,
 * in registration order. Registering appends; `removeListener` removes the
 * most recently added occurrence of that callback and drops the topic when
 * its list becomes empty; `emit` calls the topic's callbacks in order.
 * Callbacks are identified by a `ListenerId`, standing for closure identity.
 */
module EventBus {

  import opened Wrappers
  import opened Topics

  type ListenerId = nat

  type Listeners = map<string, seq<ListenerId>>

  /** The callbacks `emit(t)` calls, in order. */
  function Get(m: Listeners, t: string): seq<ListenerId> {
    if t in m then m[t] else []
  }

  /** The emitter never keeps a topic with no callbacks. */
  ghost predicate NoEmpty(m: Listeners) {
    forall t :: t in m ==> m[t] != []
  }

  /** Remove the last occurrence of cb, if any. */
  function RemoveLast(s: seq<ListenerId>, cb: ListenerId): seq<ListenerId>
    decreases |s|
  {
    if s == [] then []
    else if s[|s| - 1] == cb then s[..|s| - 1]
    else RemoveLast(s[..|s| - 1], cb) + [s[|s| - 1]]
  }

  /** Removing a callback leaves only callbacks that were there. */
  lemma {:induction false} RemoveLastSubset(s: seq<ListenerId>, cb: ListenerId)
    ensures forall x :: x in RemoveLast(s, cb) ==> x in s
    decreases |s|
  {
    if s != [] && s[|s| - 1] != cb {
      var init := s[..|s| - 1];
      RemoveLastSubset(init, cb);
      assert s == init + [s[|s| - 1]];
    }
  }

  /** `emitter.on(t, cb)`. */
  function AddListener(m: Listeners, t: string, cb: ListenerId): Listeners {
    m[t := Get(m, t) + [cb]]
  }

  /** `emitter.removeListener(t, cb)`. */
  function RemoveListener(m: Listeners, t: string, cb: ListenerId): Listeners {
    var s := RemoveLast(Get(m, t), cb);
    if s == [] then m - {t} else m[t := s]
  }

  /** Registration on each topic of ts in turn (`events.forEach(… on …)`). */
  function AddAll(m: Listeners, ts: seq<string>, cb: ListenerId): Listeners
    decreases |ts|
  {
    if ts == [] then m else AddAll(AddListener(m, ts[0], cb), ts[1..], cb)
  }

  /** Removal from each topic of ts in turn (the returned off function). */
  function RemoveAll(m: Listeners, ts: seq<string>, cb: ListenerId): Listeners
    decreases |ts|
  {
    if ts == [] then m else RemoveAll(RemoveListener(m, ts[0], cb), ts[1..], cb)
  }

  /** The first argument of `on`: a topic, a list of topics, or a falsy value. */
  datatype TopicArg = Falsy | One(topic: string) | Many(topics: seq<string>)

  /** What the off function returned by `on` undoes. */
  datatype OffHandle = OffHandle(topics: seq<string>, cb: ListenerId)

  const BadEventMessage := "event must be a string or an array"

  /**
   * The topics `on` registers on: a falsy argument (including the empty
   * string) throws, a single topic is wrapped in a list, a list is used as is.
   */
  function OnTopics(events: TopicArg): (r: Result<seq<string>>)
    ensures r.Err? <==> events.Falsy? || events == One("")
    ensures r.Err? ==> r.error == BadEventMessage
    ensures events.One? && events.topic != "" ==> r == Ok([events.topic])
    ensures events.Many? ==> r == Ok(events.topics)
  {
    match events
    case Falsy => Err(BadEventMessage)
    case One(t) => if t == "" then Err(BadEventMessage) else Ok([t])
    case Many(ts) => Ok(ts)
  }

  // ---------------------------------------------------------------------
  // Per-topic characterisation of registration and removal

  function Rep(cb: ListenerId, n: nat): seq<ListenerId>
    decreases n
  {
    if n == 0 then [] else [cb] + Rep(cb, n - 1)
  }

  function RemoveLastN(s: seq<ListenerId>, cb: ListenerId, n: nat): seq<ListenerId>
    decreases n
  {
    if n == 0 then s else RemoveLastN(RemoveLast(s, cb), cb, n - 1)
  }

  lemma {:induction false} RepSnoc(cb: ListenerId, n: nat)
    ensures Rep(cb, n + 1) == Rep(cb, n) + [cb]
    decreases n
  {
    if n > 0 {
      RepSnoc(cb, n - 1);
    }
  }

  lemma {:induction false} RemoveLastNRep(s: seq<ListenerId>, cb: ListenerId, n: nat)
    ensures RemoveLastN(s + Rep(cb, n), cb, n) == s
    decreases n
  {
    if n > 0 {
      RepSnoc(cb, n - 1);
      assert s + Rep(cb, n) == (s + Rep(cb, n - 1)) + [cb];
      RemoveLastNRep(s, cb, n - 1);
    } else {
      assert s + Rep(cb, 0) == s;
    }
  }

  /** How often t occurs in ts, split at the head. */
  lemma CountCons(ts: seq<string>, t: string)
    requires ts != []
    ensures multiset(ts)[t] == multiset(ts[1..])[t] + if ts[0] == t then 1 else 0
  {
    assert ts == [ts[0]] + ts[1..];
  }

  lemma {:induction false} AddAllAt(m: Listeners, ts: seq<string>, cb: ListenerId, t: string)
    ensures Get(AddAll(m, ts, cb), t) == Get(m, t) + Rep(cb, multiset(ts)[t])
    decreases |ts|
  {
    if ts == [] {
      assert Get(m, t) + Rep(cb, 0) == Get(m, t);
    } else {
      var m' := AddListener(m, ts[0], cb);
      var n := multiset(ts[1..])[t];
      CountCons(ts, t);
      AddAllAt(m', ts[1..], cb, t);
      if ts[0] == t {
        assert Get(m', t) == Get(m, t) + [cb];
        assert Rep(cb, n + 1) == [cb] + Rep(cb, n);
        assert (Get(m, t) + [cb]) + Rep(cb, n) == Get(m, t) + ([cb] + Rep(cb, n));
      } else {
        assert Get(m', t) == Get(m, t);
      }
    }
  }

  lemma {:induction false} RemoveAllAt(m: Listeners, ts: seq<string>, cb: ListenerId, t: string)
    ensures Get(RemoveAll(m, ts, cb), t) == RemoveLastN(Get(m, t), cb, multiset(ts)[t])
    decreases |ts|
  {
    if ts != [] {
      CountCons(ts, t);
      RemoveAllAt(RemoveListener(m, ts[0], cb), ts[1..], cb, t);
    }
  }

  lemma {:induction false} AddAllNoEmpty(m: Listeners, ts: seq<string>, cb: ListenerId)
    requires NoEmpty(m)
    ensures NoEmpty(AddAll(m, ts, cb))
    decreases |ts|
  {
    if ts != [] {
      AddAllNoEmpty(AddListener(m, ts[0], cb), ts[1..], cb);
    }
  }

  /** The off function adds no topic and no callback: whatever is left was registered before. */
  lemma {:induction false} RemoveAllSubset(m: Listeners, ts: seq<string>, cb: ListenerId)
    ensures forall t, x :: t in RemoveAll(m, ts, cb) && x in RemoveAll(m, ts, cb)[t] ==> t in m && x in m[t]
    decreases |ts|
  {
    if ts != [] {
      var m1 := RemoveListener(m, ts[0], cb);
      RemoveLastSubset(Get(m, ts[0]), cb);
      assert forall t, x :: t in m1 && x in m1[t] ==> t in m && x in m[t];
      RemoveAllSubset(m1, ts[1..], cb);
    }
  }

  lemma {:induction false} RemoveAllNoEmpty(m: Listeners, ts: seq<string>, cb: ListenerId)
    requires NoEmpty(m)
    ensures NoEmpty(RemoveAll(m, ts, cb))
    decreases |ts|
  {
    if ts != [] {
      RemoveAllNoEmpty(RemoveListener(m, ts[0], cb), ts[1..], cb);
    }
  }

  /** Two emitters without empty lists that agree on every topic are equal. */
  lemma SameListeners(m1: Listeners, m2: Listeners)
    requires NoEmpty(m1) && NoEmpty(m2)
    requires forall t :: Get(m1, t) == Get(m2, t)
    ensures m1 == m2
  {
    forall t ensures t in m1 <==> t in m2 {
      assert Get(m1, t) == Get(m2, t);
    }
    forall t | t in m1 ensures m1[t] == m2[t] {
      assert Get(m1, t) == Get(m2, t);
    }
  }

  // ---------------------------------------------------------------------
  // Properties of on / off / emit

  /**
   * `on(ts, cb)` followed by the off function it returned gives back the
   * emitter exactly as it was.
   */
  lemma {:induction false} OnOffRoundTrip(m: Listeners, ts: seq<string>, cb: ListenerId)
    requires NoEmpty(m)
    ensures RemoveAll(AddAll(m, ts, cb), ts, cb) == m
  {
    var m1 := AddAll(m, ts, cb);
    var m2 := RemoveAll(m1, ts, cb);
    AddAllNoEmpty(m, ts, cb);
    RemoveAllNoEmpty(m1, ts, cb);
    forall t ensures Get(m2, t) == Get(m, t) {
      AddAllAt(m, ts, cb, t);
      RemoveAllAt(m1, ts, cb, t);
      RemoveLastNRep(Get(m, t), cb, multiset(ts)[t]);
    }
    SameListeners(m2, m);
  }

  /**
   * `on(ts, cb)` registers cb once per occurrence of a topic in ts, at the end
   * of that topic's list, and leaves every other topic alone.
   */
  lemma {:induction false} OnRegistersOncePerTopic(m: Listeners, ts: seq<string>, cb: ListenerId, t: string)
    ensures t in ts ==> Get(AddAll(m, ts, cb), t) == Get(m, t) + Rep(cb, multiset(ts)[t])
    ensures t !in ts ==> Get(AddAll(m, ts, cb), t) == Get(m, t)
    ensures multiset(Get(AddAll(m, ts, cb), t))[cb] == multiset(Get(m, t))[cb] + multiset(ts)[t]
  {
    AddAllAt(m, ts, cb, t);
    RepCount(cb, multiset(ts)[t]);
    if t !in ts {
      assert multiset(ts)[t] == 0;
    }
  }

  lemma {:induction false} RepCount(cb: ListenerId, n: nat)
    ensures multiset(Rep(cb, n))[cb] == n
    ensures forall x :: x in Rep(cb, n) ==> x == cb
    decreases n
  {
    if n > 0 {
      RepCount(cb, n - 1);
    }
  }

  /** The off function leaves every topic outside its list untouched. */
  lemma {:induction false} OffTouchesOnlyItsTopics(m: Listeners, ts: seq<string>, cb: ListenerId, t: string)
    requires t !in ts
    ensures Get(RemoveAll(m, ts, cb), t) == Get(m, t)
  {
    RemoveAllAt(m, ts, cb, t);
    assert multiset(ts)[t] == 0;
  }

  lemma {:induction false} AddAllAppend(m: Listeners, a: seq<string>, b: seq<string>, cb: ListenerId)
    ensures AddAll(m, a + b, cb) == AddAll(AddAll(m, a, cb), b, cb)
    decreases |a|
  {
    if a != [] {
      assert (a + b)[1..] == a[1..] + b;
      AddAllAppend(AddListener(m, a[0], cb), a[1..], b, cb);
    } else {
      assert a + b == b;
    }
  }

  lemma {:induction false} RemoveAllAppend(m: Listeners, a: seq<string>, b: seq<string>, cb: ListenerId)
    ensures RemoveAll(m, a + b, cb) == RemoveAll(RemoveAll(m, a, cb), b, cb)
    decreases |a|
  {
    if a != [] {
      assert (a + b)[1..] == a[1..] + b;
      RemoveAllAppend(RemoveListener(m, a[0], cb), a[1..], b, cb);
    } else {
      assert a + b == b;
    }
  }

  /**
   * `onCollectionTouched(c, cb)`: an emit on `update-collection:c`,
   * `remove-collection:c` or `insert:c` reaches cb, an emit on any other data
   * topic (another collection, any item topic) reaches only what was there
   * before, and after the returned off function none of these topics keeps cb.
   */
  lemma CollectionTouchedReach(m: Listeners, c: string, cb: ListenerId, e: EventType, p: string)
    requires NoEmpty(m)
    ensures var m1 := AddAll(m, CollectionTopics(c), cb);
      && (p == c && e in CollectionKinds ==> cb in Get(m1, DataTopic(e, p)))
      && (!(p == c && e in CollectionKinds) ==> Get(m1, DataTopic(e, p)) == Get(m, DataTopic(e, p)))
      && Get(RemoveAll(m1, CollectionTopics(c), cb), DataTopic(e, p)) == Get(m, DataTopic(e, p))
  {
    var t := DataTopic(e, p);
    CollectionTopicsExact(c, e, p);
    OnRegistersOncePerTopic(m, CollectionTopics(c), cb, t);
    if t in CollectionTopics(c) {
      RepCount(cb, multiset(CollectionTopics(c))[t]);
    }
    OnOffRoundTrip(m, CollectionTopics(c), cb);
  }

  /**
   * What `on` does with each shape of its first argument: a single topic
   * registers the callback once, on that topic alone; an empty list is
   * truthy, so it is accepted and registers nothing; and for every accepted
   * argument the returned off function restores the emitter.
   */
  lemma OnTopicsMeaning(m: Listeners, events: TopicArg, cb: ListenerId, t: string)
    requires NoEmpty(m)
    ensures events.One? && events.topic != "" ==>
      Get(AddAll(m, OnTopics(events).value, cb), t) == Get(m, t) + (if t == events.topic then [cb] else [])
    ensures events == Many([]) ==> OnTopics(events) == Ok([]) && AddAll(m, OnTopics(events).value, cb) == m
    ensures OnTopics(events).Ok? ==> RemoveAll(AddAll(m, OnTopics(events).value, cb), OnTopics(events).value, cb) == m
  {
    if OnTopics(events).Ok? {
      OnOffRoundTrip(m, OnTopics(events).value, cb);
    }
    if events.One? && events.topic != "" {
      AddAllAt(m, [events.topic], cb, t);
      assert multiset([events.topic])[t] == if t == events.topic then 1 else 0;
      assert Rep(cb, 1) == [cb];
    }
  }

  /** The same for `onItemTouched(c, i, cb)` and the topics of item `c:i`. */
  lemma ItemTouchedReach(m: Listeners, c: string, i: string, cb: ListenerId, e: EventType, p: string)
    requires NoEmpty(m)
    ensures var m1 := AddAll(m, ItemTopics(c, i), cb);
      && (p == ItemParam(c, i) && e in ItemKinds ==> cb in Get(m1, DataTopic(e, p)))
      && (!(p == ItemParam(c, i) && e in ItemKinds) ==> Get(m1, DataTopic(e, p)) == Get(m, DataTopic(e, p)))
      && Get(RemoveAll(m1, ItemTopics(c, i), cb), DataTopic(e, p)) == Get(m, DataTopic(e, p))
  {
    var t := DataTopic(e, p);
    ItemTopicsExact(c, i, e, p);
    OnRegistersOncePerTopic(m, ItemTopics(c, i), cb, t);
    if t in ItemTopics(c, i) {
      RepCount(cb, multiset(ItemTopics(c, i))[t]);
    }
    OnOffRoundTrip(m, ItemTopics(c, i), cb);
  }

  // ---------------------------------------------------------------------

  /** The server's emitter (`getEventsEmitter()`), created empty. */
  class Bus {
    var listeners: Listeners

    ghost predicate Valid()
      reads this
    {
      NoEmpty(listeners)
    }

    constructor ()
      ensures Valid() && listeners == map[]
    {
      listeners := map[];
    }

    /** `initializeEventsEmitter()`: the next use starts from a fresh emitter. */
    method Reset()
      modifies this
      ensures Valid() && listeners == map[]
    {
      listeners := map[];
    }

    /** `on(events, cb)`: register cb on each topic and return the off function. */
    method On(events: TopicArg, cb: ListenerId) returns (r: Result<OffHandle>)
      requires Valid()
      modifies this
      ensures Valid()
      ensures r.Err? <==> OnTopics(events).Err?
      ensures r.Err? ==> r.error == BadEventMessage && listeners == old(listeners)
      ensures r.Ok? ==> r.value == OffHandle(OnTopics(events).value, cb)
      ensures r.Ok? ==> listeners == AddAll(old(listeners), r.value.topics, cb)
    {
      var topics := OnTopics(events);
      if topics.Err? {
        return Err(topics.error);
      }
      var ts := topics.value;
      var i := 0;
      while i < |ts|
        invariant 0 <= i <= |ts|
        invariant listeners == AddAll(old(listeners), ts[..i], cb)
      {
        AddAllAppend(old(listeners), ts[..i], [ts[i]], cb);
        assert ts[..i + 1] == ts[..i] + [ts[i]];
        listeners := AddListener(listeners, ts[i], cb);
        i := i + 1;
      }
      assert ts[..i] == ts;
      AddAllNoEmpty(old(listeners), ts, cb);
      r := Ok(OffHandle(ts, cb));
    }

    /** Calling an off function returned by `on`. */
    method Off(h: OffHandle)
      requires Valid()
      modifies this
      ensures Valid()
      ensures listeners == RemoveAll(old(listeners), h.topics, h.cb)
    {
      var i := 0;
      while i < |h.topics|
        invariant 0 <= i <= |h.topics|
        invariant listeners == RemoveAll(old(listeners), h.topics[..i], h.cb)
      {
        RemoveAllAppend(old(listeners), h.topics[..i], [h.topics[i]], h.cb);
        assert h.topics[..i + 1] == h.topics[..i] + [h.topics[i]];
        listeners := RemoveListener(listeners, h.topics[i], h.cb);
        i := i + 1;
      }
      assert h.topics[..i] == h.topics;
      RemoveAllNoEmpty(old(listeners), h.topics, h.cb);
    }

    /**
     * `emit(topic, …)`: the callbacks reached, in the order they are called,
     * and the emitter's boolean answer (whether the topic had any).
     */
    method Emit(topic: string) returns (reached: seq<ListenerId>, had: bool)
      requires Valid()
      ensures reached == Get(listeners, topic)
      ensures had <==> reached != []
      ensures had <==> topic in listeners
    {
      reached := Get(listeners, topic);
      had := topic in listeners;
    }

    /** `onEvent(kind, param, cb)`: register on `<kind>:<param>`. */
    method OnEvent(e: EventType, param: string, cb: ListenerId) returns (off: OffHandle)
      requires Valid()
      modifies this
      ensures Valid()
      ensures off == OffHandle([DataTopic(e, param)], cb)
      ensures listeners == AddListener(old(listeners), DataTopic(e, param), cb)
    {
      var r := On(One(DataTopic(e, param)), cb);
      off := r.value;
    }

    /** `onCollectionTouched(c, cb)`: update, remove and insert topics of c, one combined off. */
    method OnCollectionTouched(c: string, cb: ListenerId) returns (off: OffHandle)
      requires Valid()
      modifies this
      ensures Valid()
      ensures off == OffHandle(CollectionTopics(c), cb)
      ensures listeners == AddAll(old(listeners), CollectionTopics(c), cb)
    {
      var offUpdate := OnEvent(UpdateCollection, c, cb);
      var offRemove := OnEvent(RemoveCollection, c, cb);
      var offInsert := OnEvent(Insert, c, cb);
      var t1, t2, t3 := DataTopic(UpdateCollection, c), DataTopic(RemoveCollection, c), DataTopic(Insert, c);
      AddAllAppend(old(listeners), [t1], [t2], cb);
      AddAllAppend(old(listeners), [t1, t2], [t3], cb);
      assert [t1] + [t2] == [t1, t2];
      assert [t1, t2] + [t3] == CollectionTopics(c);
      off := OffHandle(offUpdate.topics + offRemove.topics + offInsert.topics, cb);
    }

    /** `onItemTouched(c, i, cb)`: remove and update topics of item `c:i`, one combined off. */
    method OnItemTouched(c: string, i: string, cb: ListenerId) returns (off: OffHandle)
      requires Valid()
      modifies this
      ensures Valid()
      ensures off == OffHandle(ItemTopics(c, i), cb)
      ensures listeners == AddAll(old(listeners), ItemTopics(c, i), cb)
    {
      var offRemove := OnEvent(RemoveItem, ItemParam(c, i), cb);
      var offUpdate := OnEvent(UpdateItem, ItemParam(c, i), cb);
      AddAllAppend(old(listeners), [DataTopic(RemoveItem, ItemParam(c, i))], [DataTopic(UpdateItem, ItemParam(c, i))], cb);
      assert [DataTopic(RemoveItem, ItemParam(c, i))] + [DataTopic(UpdateItem, ItemParam(c, i))] == ItemTopics(c, i);
      off := OffHandle(offRemove.topics + offUpdate.topics, cb);
    }
  }
}
