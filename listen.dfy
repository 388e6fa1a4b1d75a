/**
 * Subscriptions made through the API: the filter registry (`addFilter`,
 * `getFilter`), the `/listen` and `/listen/stop` handlers, the periodic
 * token re-check of a listen, and what a callback registered by them does
 * when an emit reaches it.
 *
 * Callbacks are identified by `ListenerId`; the table `callbacks` says what
 * each one is. Filter callbacks are identified by `FilterId`, and what the
 * promise a filter returns does is an input.
 */
module Listening {

  import opened Wrappers
  import opened JsValues
  import opened Topics
  import opened EventBus
  import opened Http
  import LongPoll

  type FilterId = nat

  /** The `filters` dictionary; `None` is a name bound to a falsy value. */
  type Filters = map<string, Option<FilterId>>

  /** `addFilter(filter, callback)`. */
  function AddFilter(filters: Filters, name: string, callback: Option<FilterId>): Filters {
    filters[name := callback]
  }

  /** `getFilter(filter)`: the callback, or `null` when unknown or falsy. */
  function GetFilter(filters: Filters, name: string): (r: Option<FilterId>)
    ensures r.Some? <==> name in filters && filters[name].Some?
  {
    if name in filters then filters[name] else None
  }

  /** `getFilter` returns what the last `addFilter` stored under that name, and other names are unaffected. */
  lemma AddThenGetFilter(filters: Filters, name: string, callback: Option<FilterId>, other: string)
    ensures GetFilter(AddFilter(filters, name, callback), name) == callback
    ensures other != name ==> GetFilter(AddFilter(filters, name, callback), other) == GetFilter(filters, other)
  {
  }

  /** The body fields `/listen` and `/listen/stop` read. */
  datatype ListenRequest = ListenRequest(token: Option<string>, collection: Option<string>,
                                         id: Option<string>, filter: Option<string>)

  /** What a registered callback is. */
  datatype Callback =
    | Forwarder(request: ListenRequest, handler: Option<FilterId>, off: OffHandle)
    | Unsubscriber(off: OffHandle)
    | Collector(poll: nat)

  /**
   * The emitter, the meaning of each callback on it, the listens whose
   * re-check timer is armed, and the next unused callback identity.
   */
  datatype ListenState = ListenState(listeners: Listeners, callbacks: map<ListenerId, Callback>,
                                     checks: set<ListenerId>, next: ListenerId)

  /** Every callback on the emitter is known and older than `next`. */
  ghost predicate Wf(s: ListenState) {
    && NoEmpty(s.listeners)
    && (forall t, i :: t in s.listeners && 0 <= i < |s.listeners[t]| ==>
          s.listeners[t][i] < s.next && s.listeners[t][i] in s.callbacks)
  }

  /** `id || ''` and `filter || ''` in the stop key. */
  function OrEmpty(f: Option<string>): string {
    if FieldTruthy(f) then f.value else ""
  }

  /** The key a listen registers its stop on, and `/listen/stop` emits. */
  function StopKeyOf(req: ListenRequest): string {
    StopKey(FieldText(req.token), FieldText(req.collection), OrEmpty(req.id), OrEmpty(req.filter))
  }

  /** The topics a listen subscribes to: the item's when an id is given, the collection's otherwise. */
  function ListenTopics(req: ListenRequest): seq<string> {
    if FieldTruthy(req.id) then ItemTopics(FieldText(req.collection), req.id.value)
    else CollectionTopics(FieldText(req.collection))
  }

  datatype Handled = Handled(reply: Reply, state: ListenState)

  /** The filter a listen forwards through: the named one when a filter is given. */
  function ListenHandler(filters: Filters, req: ListenRequest): Option<FilterId> {
    if FieldTruthy(req.filter) then GetFilter(filters, req.filter.value) else None
  }

  /**
   * The `/listen` handler once the token check has settled with `valid`.
   * A missing collection is refused before the token is looked at.
   */
  function Listen(s: ListenState, filters: Filters, req: ListenRequest, valid: bool): (r: Handled)
    ensures r.reply == Success <==>
      FieldTruthy(req.collection) && valid && (FieldTruthy(req.filter) ==> GetFilter(filters, req.filter.value).Some?)
    ensures r.reply != Success ==> r.state == s
    ensures r.reply == Success ==> r.state.next > s.next && s.next in r.state.checks && s.next in r.state.callbacks
  {
    if !FieldTruthy(req.collection) then Handled(ErrorReply(400, "Missing collection name"), s)
    else if !valid then Handled(InvalidToken(req.token), s)
    else if FieldTruthy(req.filter) && GetFilter(filters, req.filter.value).None? then
      Handled(ErrorReply(400, "Unknown filter " + req.filter.value), s)
    else
      var l := s.next;
      var topics := ListenTopics(req);
      var forwarder := Forwarder(req, ListenHandler(filters, req), OffHandle(topics, l));
      if FieldTruthy(req.id) then
        Handled(Success, ListenState(AddAll(s.listeners, topics, l), s.callbacks[l := forwarder],
                                     s.checks + {l}, l + 1))
      else
        var stop := l + 1;
        Handled(Success, ListenState(AddListener(AddAll(s.listeners, topics, l), StopKeyOf(req), stop),
                                     s.callbacks[l := forwarder][stop := Unsubscriber(OffHandle(topics, l))],
                                     s.checks + {l}, l + 2))
  }

  /** Run, in order, the callbacks an emit on a stop key reaches: each unsubscriber calls its off function. */
  function RunStops(m: Listeners, callbacks: map<ListenerId, Callback>, reached: seq<ListenerId>): Listeners
    decreases |reached|
  {
    if reached == [] then m
    else
      var next := if reached[0] in callbacks && callbacks[reached[0]].Unsubscriber? then
        var h := callbacks[reached[0]].off; RemoveAll(m, h.topics, h.cb)
      else m;
      RunStops(next, callbacks, reached[1..])
  }

  /** The `/listen/stop` handler once the token check has settled with `valid`. */
  function ListenStop(s: ListenState, req: ListenRequest, valid: bool): (r: Handled)
    ensures r.reply == Success <==> FieldTruthy(req.collection) && valid
    ensures r.reply != Success ==> r.state == s
    ensures r.state.callbacks == s.callbacks && r.state.checks == s.checks && r.state.next == s.next
  {
    if !FieldTruthy(req.collection) then Handled(ErrorReply(400, "Missing collection name"), s)
    else if !valid then Handled(InvalidToken(req.token), s)
    else
      var reached := Get(s.listeners, StopKeyOf(req));
      Handled(Success, s.(listeners := RunStops(s.listeners, s.callbacks, reached)))
  }

  /**
   * The re-check timer of listen `l` fires and the token check ends with
   * `verdict`: a valid token re-arms it, an invalid one calls the listen's
   * off function and stops the timer. The check has no `catch`, so a
   * rejected (or never settling) check runs neither: the timer stops and
   * the forwarder stays subscribed.
   */
  function CheckFires(s: ListenState, l: ListenerId, verdict: Settle<bool>): (r: ListenState)
    ensures verdict == Resolved(true) || l !in s.checks ==> r == s
    ensures r.callbacks == s.callbacks && r.next == s.next
    ensures r.checks == s.checks || r.checks == s.checks - {l}
    ensures l in s.checks && !verdict.Resolved? ==> r.listeners == s.listeners && r.checks == s.checks - {l}
  {
    if l !in s.checks || verdict == Resolved(true) then s
    else if !verdict.Resolved? then s.(checks := s.checks - {l})
    else if l !in s.callbacks || !s.callbacks[l].Forwarder? then s
    else
      var h := s.callbacks[l].off;
      s.(listeners := RemoveAll(s.listeners, h.topics, h.cb), checks := s.checks - {l})
  }

  /**
   * What a forwarder does with the arguments of an emit that reaches it:
   * re-emit them on `listen:<token>` after the collection, id and filter,
   * either directly or, with a filter, once the filter's promise resolves
   * with new arguments. A filter promise that stays pending or rejects
   * forwards nothing.
   */
  function Forward(req: ListenRequest, handler: Option<FilterId>, args: seq<Value>,
                   run: (FilterId, seq<Value>) -> Settle<seq<Value>>): (r: Option<Emission>)
    ensures r.Some? ==> r.value.topic == ListenTopic(FieldText(req.token))
    ensures r.Some? ==> |r.value.args| >= 3
    ensures r.Some? ==> r.value.args[..3] == [FieldValue(req.collection), FieldValue(req.id), FieldValue(req.filter)]
    ensures !FieldTruthy(req.filter) ==> r.Some? && r.value.args[3..] == args
    ensures FieldTruthy(req.filter) ==> (r.Some? <==> handler.Some? && run(handler.value, args).Resolved?)
    ensures FieldTruthy(req.filter) && r.Some? ==> r.value.args[3..] == run(handler.value, args).value
  {
    var head := [FieldValue(req.collection), FieldValue(req.id), FieldValue(req.filter)];
    if !FieldTruthy(req.filter) then Some(Emission(ListenTopic(FieldText(req.token)), head + args))
    else if handler.None? then None
    else
      match run(handler.value, args)
      case Resolved(newArgs) => Some(Emission(ListenTopic(FieldText(req.token)), head + newArgs))
      case _ => None
  }

  /**
   * The `/on` collector subscribed to `listen:<token>` unpacks a forwarded
   * emit into the listen's collection, id and filter, and the event's own
   * arguments (or the filter's new ones).
   */
  lemma ForwardReachesCollector(req: ListenRequest, handler: Option<FilterId>, args: seq<Value>,
                                run: (FilterId, seq<Value>) -> Settle<seq<Value>>)
    requires Forward(req, handler, args, run).Some?
    ensures var e := Forward(req, handler, args, run).value;
      && LongPoll.Unpack(e.args).0 == LongPoll.ListenInfo(FieldValue(req.collection), FieldValue(req.id), FieldValue(req.filter))
      && (!FieldTruthy(req.filter) ==> LongPoll.Unpack(e.args).1 == args)
      && (FieldTruthy(req.filter) ==> LongPoll.Unpack(e.args).1 == run(handler.value, args).value)
  {
    var e := Forward(req, handler, args, run).value;
    assert e.args == e.args[..3] + e.args[3..];
  }

  // ---------------------------------------------------------------------
  // Properties of /listen and /listen/stop

  lemma AddAllWf(s: ListenState, ts: seq<string>, l: ListenerId, c: Callback, checks: set<ListenerId>)
    requires Wf(s) && l >= s.next
    ensures Wf(ListenState(AddAll(s.listeners, ts, l), s.callbacks[l := c], checks, l + 1))
  {
    var m := AddAll(s.listeners, ts, l);
    AddAllNoEmpty(s.listeners, ts, l);
    forall t, i | t in m && 0 <= i < |m[t]| ensures m[t][i] < l + 1 && m[t][i] in s.callbacks[l := c] {
      OnRegistersOncePerTopic(s.listeners, ts, l, t);
      AddAllAt(s.listeners, ts, l, t);
      RepCount(l, multiset(ts)[t]);
      assert m[t] == Get(m, t) == Get(s.listeners, t) + Rep(l, multiset(ts)[t]);
      if i >= |Get(s.listeners, t)| {
        assert m[t][i] in Rep(l, multiset(ts)[t]);
      } else {
        assert m[t][i] == s.listeners[t][i];
      }
    }
  }

  /** `/listen` keeps the state well formed. */
  lemma ListenWf(s: ListenState, filters: Filters, req: ListenRequest, valid: bool)
    requires Wf(s)
    ensures Wf(Listen(s, filters, req, valid).state)
  {
    if FieldTruthy(req.collection) && valid && !(FieldTruthy(req.filter) && GetFilter(filters, req.filter.value).None?) {
      var l := s.next;
      if FieldTruthy(req.id) {
        var topics := ItemTopics(req.collection.value, req.id.value);
        ItemListenIs(s, filters, req);
        AddAllWf(s, topics, l, Forwarder(req, ListenHandler(filters, req), OffHandle(topics, l)), s.checks + {l});
      } else {
        var topics := CollectionTopics(req.collection.value);
        CollectionListenIs(s, filters, req);
        SubscribeWithStopWf(s, topics, StopKeyOf(req), Forwarder(req, ListenHandler(filters, req), OffHandle(topics, l)),
                            s.checks + {l});
      }
    }
  }

  /** Adding a callback on ts and an unsubscriber on a key keeps the state well formed. */
  lemma SubscribeWithStopWf(s: ListenState, ts: seq<string>, key: string, c: Callback, checks: set<ListenerId>)
    requires Wf(s)
    ensures Wf(ListenState(AddListener(AddAll(s.listeners, ts, s.next), key, s.next + 1),
                           s.callbacks[s.next := c][s.next + 1 := Unsubscriber(OffHandle(ts, s.next))],
                           checks, s.next + 2))
  {
    var l := s.next;
    AddAllWf(s, ts, l, c, checks);
    var s1 := ListenState(AddAll(s.listeners, ts, l), s.callbacks[l := c], checks, l + 1);
    AddAllWf(s1, [key], l + 1, Unsubscriber(OffHandle(ts, l)), checks);
    assert AddAll(s1.listeners, [key], l + 1) == AddListener(s1.listeners, key, l + 1);
  }


  /** The state after an accepted item listen, spelled out. */
  lemma ItemListenIs(s: ListenState, filters: Filters, req: ListenRequest)
    requires FieldTruthy(req.collection) && FieldTruthy(req.id)
    requires !(FieldTruthy(req.filter) && GetFilter(filters, req.filter.value).None?)
    ensures var topics := ItemTopics(req.collection.value, req.id.value);
      var l := s.next;
      Listen(s, filters, req, true)
        == Handled(Success, ListenState(AddAll(s.listeners, topics, l),
                                        s.callbacks[l := Forwarder(req, ListenHandler(filters, req), OffHandle(topics, l))],
                                        s.checks + {l}, l + 1))
  {
    assert ListenTopics(req) == ItemTopics(req.collection.value, req.id.value);
  }


  /**
   * The refusals of `/listen`: a missing collection gives 400 before the
   * token is looked at, an invalid token 500, an unknown filter 400; none of
   * them subscribes anything.
   */
  lemma ListenRefusals(s: ListenState, filters: Filters, req: ListenRequest, valid: bool)
    ensures var h := Listen(s, filters, req, valid);
      && (!FieldTruthy(req.collection) ==> h == Handled(ErrorReply(400, "Missing collection name"), s))
      && (FieldTruthy(req.collection) && !valid ==> h == Handled(InvalidToken(req.token), s))
      && (FieldTruthy(req.collection) && valid && FieldTruthy(req.filter)
            && GetFilter(filters, req.filter.value).None? ==>
            h == Handled(ErrorReply(400, "Unknown filter " + req.filter.value), s))
      && (h.state != s ==> h.reply == Success)
  {
  }

  /**
   * An accepted item listen subscribes one new callback on the two item
   * topics and nothing else; in particular it registers no stop key.
   */
  lemma ItemListenSubscribes(s: ListenState, filters: Filters, req: ListenRequest, t: string)
    requires FieldTruthy(req.collection) && FieldTruthy(req.id)
    requires !(FieldTruthy(req.filter) && GetFilter(filters, req.filter.value).None?)
    ensures var h := Listen(s, filters, req, true);
      var topics := ItemTopics(req.collection.value, req.id.value);
      && h.reply == Success
      && h.state.listeners == AddAll(s.listeners, topics, s.next)
      && (t !in topics ==> Get(h.state.listeners, t) == Get(s.listeners, t))
      && (t in topics ==> Get(h.state.listeners, t) == Get(s.listeners, t) + [s.next])
      && Get(h.state.listeners, StopKeyOf(req)) == Get(s.listeners, StopKeyOf(req))
  {
    var topics := ItemTopics(req.collection.value, req.id.value);
    ItemListenIs(s, filters, req);
    ItemTopicsOnce(s.listeners, req.collection.value, req.id.value, s.next, t);
    StopKeyOutsideData(req);
    assert ListenTopics(req) == topics;
    OnRegistersOncePerTopic(s.listeners, topics, s.next, StopKeyOf(req));
  }

  /** Adding on the two item topics adds once on each of them and nowhere else. */
  lemma ItemTopicsOnce(m: Listeners, collection: string, id: string, l: ListenerId, t: string)
    ensures var topics := ItemTopics(collection, id);
      && (t !in topics ==> Get(AddAll(m, topics, l), t) == Get(m, t))
      && (t in topics ==> Get(AddAll(m, topics, l), t) == Get(m, t) + [l])
  {
    var topics := ItemTopics(collection, id);
    OnRegistersOncePerTopic(m, topics, l, t);
    DataTopicInjective(RemoveItem, ItemParam(collection, id), UpdateItem, ItemParam(collection, id));
    if t in topics {
      assert multiset(topics)[t] == 1;
      assert Rep(l, 1) == [l];
    }
  }

  /**
   * An accepted collection listen subscribes the forwarder on the three
   * collection topics and an unsubscriber, holding the forwarder's off
   * function, on the stop key.
   */
  lemma CollectionListenSubscribes(s: ListenState, filters: Filters, req: ListenRequest)
    requires FieldTruthy(req.collection) && !FieldTruthy(req.id)
    requires !(FieldTruthy(req.filter) && GetFilter(filters, req.filter.value).None?)
    ensures var h := Listen(s, filters, req, true);
      var topics := CollectionTopics(req.collection.value);
      && h.reply == Success
      && h.state.listeners == AddListener(AddAll(s.listeners, topics, s.next), StopKeyOf(req), s.next + 1)
      && h.state.callbacks[s.next + 1] == Unsubscriber(OffHandle(topics, s.next))
      && s.next in h.state.checks
  {
    CollectionListenIs(s, filters, req);
  }

  /** The state after an accepted collection listen, spelled out. */
  lemma CollectionListenIs(s: ListenState, filters: Filters, req: ListenRequest)
    requires FieldTruthy(req.collection) && !FieldTruthy(req.id)
    requires !(FieldTruthy(req.filter) && GetFilter(filters, req.filter.value).None?)
    ensures var topics := CollectionTopics(req.collection.value);
      var l := s.next;
      Listen(s, filters, req, true)
        == Handled(Success, ListenState(AddListener(AddAll(s.listeners, topics, l), StopKeyOf(req), l + 1),
                                        s.callbacks[l := Forwarder(req, ListenHandler(filters, req), OffHandle(topics, l))]
                                                   [l + 1 := Unsubscriber(OffHandle(topics, l))],
                                        s.checks + {l}, l + 2))
  {
    assert ListenTopics(req) == CollectionTopics(req.collection.value);
  }

  /** A stop key is never a data topic, so no listen's topics contain one. */
  lemma StopKeyOutsideData(req: ListenRequest)
    ensures forall e, p :: StopKeyOf(req) != DataTopic(e, p)
    ensures StopKeyOf(req) !in ListenTopics(req)
  {
    forall e, p ensures StopKeyOf(req) != DataTopic(e, p) {
      ListenTopicsDisjoint("", FieldText(req.token), e, p, FieldText(req.collection), OrEmpty(req.id), OrEmpty(req.filter));
    }
  }

  /** Removing on topics other than t commutes with adding on t. */
  lemma RemoveAllAddListener(m: Listeners, ts: seq<string>, cb: ListenerId, key: string, other: ListenerId)
    requires NoEmpty(m) && key !in ts
    ensures RemoveAll(AddListener(m, key, other), ts, cb) == AddListener(RemoveAll(m, ts, cb), key, other)
  {
    var lhs := RemoveAll(AddListener(m, key, other), ts, cb);
    var rhs := AddListener(RemoveAll(m, ts, cb), key, other);
    AddAllNoEmpty(m, [key], other);
    assert AddAll(m, [key], other) == AddListener(m, key, other);
    RemoveAllNoEmpty(AddListener(m, key, other), ts, cb);
    RemoveAllNoEmpty(m, ts, cb);
    AddAllNoEmpty(RemoveAll(m, ts, cb), [key], other);
    assert AddAll(RemoveAll(m, ts, cb), [key], other) == rhs;
    forall t ensures Get(lhs, t) == Get(rhs, t) {
      RemoveAllAt(AddListener(m, key, other), ts, cb, t);
      RemoveAllAt(m, ts, cb, t);
      if t == key {
        assert multiset(ts)[t] == 0;
      }
    }
    SameListeners(lhs, rhs);
  }

  /** Adding on fresh topics and then on a key outside them leaves that key holding only the new callback. */
  lemma FreshKeyHoldsOne(m: Listeners, ts: seq<string>, l: ListenerId, key: string)
    requires key !in m && key !in ts
    ensures Get(AddListener(AddAll(m, ts, l), key, l + 1), key) == [l + 1]
  {
    OnRegistersOncePerTopic(m, ts, l, key);
  }

  /** Taking l off its topics after a key outside them was added leaves only that key's addition. */
  lemma OffKeepsKey(m: Listeners, ts: seq<string>, l: ListenerId, key: string)
    requires NoEmpty(m) && key !in ts
    ensures RemoveAll(AddListener(AddAll(m, ts, l), key, l + 1), ts, l) == AddListener(m, key, l + 1)
  {
    AddAllNoEmpty(m, ts, l);
    RemoveAllAddListener(AddAll(m, ts, l), ts, l, key, l + 1);
    OnOffRoundTrip(m, ts, l);
  }

  /**
   * A collection listen followed by `/listen/stop` with the same fields
   * removes the forwarder from every topic it was on; only the unsubscriber
   * stays registered on the stop key, which the server never removes.
   */
  lemma ListenThenStop(s: ListenState, filters: Filters, req: ListenRequest)
    requires NoEmpty(s.listeners)
    requires FieldTruthy(req.collection) && !FieldTruthy(req.id)
    requires !(FieldTruthy(req.filter) && GetFilter(filters, req.filter.value).None?)
    requires StopKeyOf(req) !in s.listeners
    ensures var s1 := Listen(s, filters, req, true).state;
      var h := ListenStop(s1, req, true);
      && h.reply == Success
      && h.state.listeners == AddListener(s.listeners, StopKeyOf(req), s.next + 1)
  {
    var topics := CollectionTopics(req.collection.value);
    CollectionListenIs(s, filters, req);
    StopKeyOutsideData(req);
    assert ListenTopics(req) == topics;
    StopUndoesListen(s, Listen(s, filters, req, true).state, req, topics);
  }

  /**
   * `/listen/stop` on a state where listen `s.next` was added on ts and its
   * unsubscriber on a fresh stop key outside ts leaves only that unsubscriber.
   */
  lemma StopUndoesListen(s: ListenState, s1: ListenState, req: ListenRequest, ts: seq<string>)
    requires FieldTruthy(req.collection) && NoEmpty(s.listeners)
    requires StopKeyOf(req) !in s.listeners && StopKeyOf(req) !in ts
    requires s1.listeners == AddListener(AddAll(s.listeners, ts, s.next), StopKeyOf(req), s.next + 1)
    requires s.next + 1 in s1.callbacks && s1.callbacks[s.next + 1] == Unsubscriber(OffHandle(ts, s.next))
    ensures ListenStop(s1, req, true)
         == Handled(Success, s1.(listeners := AddListener(s.listeners, StopKeyOf(req), s.next + 1)))
  {
    FreshKeyHoldsOne(s.listeners, ts, s.next, StopKeyOf(req));
    StopRunsUnsubscriber(s1, req, s.next + 1, OffHandle(ts, s.next));
    OffKeepsKey(s.listeners, ts, s.next, StopKeyOf(req));
  }


  /** After a collection listen on a fresh stop key, that key holds exactly the new unsubscriber. */
  lemma StopKeyHoldsUnsubscriber(s: ListenState, filters: Filters, req: ListenRequest)
    requires FieldTruthy(req.collection) && !FieldTruthy(req.id)
    requires !(FieldTruthy(req.filter) && GetFilter(filters, req.filter.value).None?)
    requires StopKeyOf(req) !in s.listeners
    ensures var s1 := Listen(s, filters, req, true).state;
      var topics := CollectionTopics(req.collection.value);
      && Get(s1.listeners, StopKeyOf(req)) == [s.next + 1]
      && s.next + 1 in s1.callbacks
      && s1.callbacks[s.next + 1] == Unsubscriber(OffHandle(topics, s.next))
  {
    var topics := CollectionTopics(req.collection.value);
    var key := StopKeyOf(req);
    CollectionListenIs(s, filters, req);
    StopKeyOutsideData(req);
    assert ListenTopics(req) == topics;
    FreshKeyHoldsOne(s.listeners, topics, s.next, key);
  }

  /** `/listen/stop` on a key holding one unsubscriber runs its off function. */
  lemma StopRunsUnsubscriber(s: ListenState, req: ListenRequest, u: ListenerId, h: OffHandle)
    requires FieldTruthy(req.collection)
    requires Get(s.listeners, StopKeyOf(req)) == [u]
    requires u in s.callbacks && s.callbacks[u] == Unsubscriber(h)
    ensures ListenStop(s, req, true) == Handled(Success, s.(listeners := RemoveAll(s.listeners, h.topics, h.cb)))
  {
    var reached := Get(s.listeners, StopKeyOf(req));
    assert reached[1..] == [];
    var after := RemoveAll(s.listeners, h.topics, h.cb);
    assert RunStops(s.listeners, s.callbacks, reached) == RunStops(after, s.callbacks, []);
    assert RunStops(s.listeners, s.callbacks, reached) == after;
  }

  /**
   * Once a collection listen's token has been found invalid by its re-check,
   * the forwarder is gone from every topic, exactly as after a stop.
   */
  lemma ListenThenExpire(s: ListenState, filters: Filters, req: ListenRequest)
    requires NoEmpty(s.listeners)
    requires FieldTruthy(req.collection) && !FieldTruthy(req.id)
    requires !(FieldTruthy(req.filter) && GetFilter(filters, req.filter.value).None?)
    ensures var s1 := Listen(s, filters, req, true).state;
      var s2 := CheckFires(s1, s.next, Resolved(false));
      && s2.listeners == AddListener(s.listeners, StopKeyOf(req), s.next + 1)
      && s.next !in s2.checks
  {
    var topics := CollectionTopics(req.collection.value);
    CollectionListenIs(s, filters, req);
    StopKeyOutsideData(req);
    assert ListenTopics(req) == topics;
    ExpireUndoesListen(s, Listen(s, filters, req, true).state, topics, StopKeyOf(req));
  }

  /**
   * A failed re-check of listen `s.next`, added on ts with an unsubscriber on
   * a key outside ts, takes it off ts and leaves only the key's addition.
   */
  lemma ExpireUndoesListen(s: ListenState, s1: ListenState, ts: seq<string>, key: string)
    requires NoEmpty(s.listeners) && key !in ts
    requires s1.listeners == AddListener(AddAll(s.listeners, ts, s.next), key, s.next + 1)
    requires s.next in s1.checks && s.next in s1.callbacks
    requires s1.callbacks[s.next].Forwarder? && s1.callbacks[s.next].off == OffHandle(ts, s.next)
    ensures CheckFires(s1, s.next, Resolved(false)).listeners == AddListener(s.listeners, key, s.next + 1)
    ensures s.next !in CheckFires(s1, s.next, Resolved(false)).checks
  {
    OffKeepsKey(s.listeners, ts, s.next, key);
  }


  /** Removing a callback from some topics keeps the state well formed. */
  lemma RemoveAllWf(s: ListenState, ts: seq<string>, cb: ListenerId, checks: set<ListenerId>)
    requires Wf(s)
    ensures Wf(s.(listeners := RemoveAll(s.listeners, ts, cb), checks := checks))
  {
    var m := RemoveAll(s.listeners, ts, cb);
    RemoveAllNoEmpty(s.listeners, ts, cb);
    RemoveAllSubset(s.listeners, ts, cb);
    forall t, i | t in m && 0 <= i < |m[t]| ensures m[t][i] < s.next && m[t][i] in s.callbacks {
      assert m[t][i] in m[t];
      var j :| 0 <= j < |s.listeners[t]| && s.listeners[t][j] == m[t][i];
    }
  }

  /** Running the stop callbacks reached keeps the state well formed. */
  lemma {:induction false} RunStopsWf(s: ListenState, reached: seq<ListenerId>)
    requires Wf(s)
    ensures Wf(s.(listeners := RunStops(s.listeners, s.callbacks, reached)))
    decreases |reached|
  {
    if reached != [] {
      var s1 := s;
      if reached[0] in s.callbacks && s.callbacks[reached[0]].Unsubscriber? {
        var h := s.callbacks[reached[0]].off;
        RemoveAllWf(s, h.topics, h.cb, s.checks);
        s1 := s.(listeners := RemoveAll(s.listeners, h.topics, h.cb));
      }
      RunStopsWf(s1, reached[1..]);
    }
  }

  /** `/listen/stop` keeps the state well formed. */
  lemma ListenStopWf(s: ListenState, req: ListenRequest, valid: bool)
    requires Wf(s)
    ensures Wf(ListenStop(s, req, valid).state)
  {
    RunStopsWf(s, Get(s.listeners, StopKeyOf(req)));
  }

  /** A re-check, whatever it finds, keeps the state well formed. */
  lemma CheckFiresWf(s: ListenState, l: ListenerId, verdict: Settle<bool>)
    requires Wf(s)
    ensures Wf(CheckFires(s, l, verdict))
  {
    if !(l !in s.checks || !verdict.Resolved? || verdict.value || l !in s.callbacks || !s.callbacks[l].Forwarder?) {
      var h := s.callbacks[l].off;
      RemoveAllWf(s, h.topics, h.cb, s.checks - {l});
    }
  }

  /** A valid re-check changes nothing: the timer stays armed. */
  lemma CheckValidKeeps(s: ListenState, l: ListenerId)
    ensures CheckFires(s, l, Resolved(true)) == s
  {
  }

  /**
   * A token check that rejects leaves an accepted listen's forwarder
   * subscribed for good: its timer is stopped, so no later re-check can
   * take the forwarder off.
   */
  lemma FailedCheckKeepsForwarder(s: ListenState, filters: Filters, req: ListenRequest, e: string,
                                  later: Settle<bool>)
    requires Listen(s, filters, req, true).reply == Success
    ensures var s1 := Listen(s, filters, req, true).state;
      var s2 := CheckFires(s1, s.next, Rejected(e));
      && s2.listeners == s1.listeners
      && s.next !in s2.checks
      && CheckFires(s2, s.next, later) == s2
  {
  }
}
