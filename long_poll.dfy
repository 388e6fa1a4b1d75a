/**
 * The `/on` long-poll handler: one request waits for the events forwarded
 * to its token's delivery topic, groups those that arrive within
 * `groupingDelay`, and answers once, either with the batch or, after
 * `timeOut`, with an empty list.
 *
 * Its closure variables (`timeout`, `group`, the subscription) and the
 * shared table of queued events (`mm_events`) are state; the timers and the
 * adapter's answers arrive as actions.
 */
module LongPoll {

  import opened Wrappers
  import opened JsValues
  import opened Http

  /** The `{collection, id, filter}` of the listen that forwarded an event. */
  datatype ListenInfo = ListenInfo(collection: Value, id: Value, filter: Value)

  /** A queued event: its id in the table, the session it is for, the listen that produced it, its arguments. */
  datatype Queued = Queued(id: nat, token: Option<string>, listen: ListenInfo, args: seq<Value>)

  /** The `mm_events` table and the next id the adapter hands out. */
  datatype Queue = Queue(events: seq<Queued>, nextId: nat)

  /**
   * One `/on` request: whether its time-out is armed, whether its grouping
   * timer is pending, whether `group` has ever been set, whether its collector
   * is still subscribed, whether the grace teardown is armed, and the replies
   * sent so far.
   */
  datatype PollState = PollState(
    token: Option<string>,
    timeoutArmed: bool,
    groupArmed: bool,
    groupUsed: bool,
    subscribed: bool,
    graceArmed: bool,
    replies: seq<Reply>)

  /** What the fetch of the queued events by the grouping timer does. */
  datatype Fetch = FetchOk | FetchFailed | FetchPending

  datatype Action =
    | TimeoutFires
    | EventArrives(received: seq<Value>, stored: bool)
    | GroupFires(fetch: Fetch)
    | GraceFires

  datatype Poll = Poll(state: PollState, queue: Queue)

  /** The parameter at position i of the collector, `undefined` when the emit passed fewer. */
  function Param(received: seq<Value>, i: nat): Value {
    if i < |received| then received[i] else Undefined
  }

  /**
   * The collector's parameters `(collection, id, filter, ...args)`: the
   * listen it came through and the event's own arguments.
   */
  function Unpack(received: seq<Value>): (r: (ListenInfo, seq<Value>))
    ensures |received| >= 3 ==> [r.0.collection, r.0.id, r.0.filter] + r.1 == received
    ensures |received| < 3 ==> r.1 == []
  {
    (ListenInfo(Param(received, 0), Param(received, 1), Param(received, 2)),
     if |received| >= 3 then received[3..] else [])
  }

  /** A new request: time-out armed, collector subscribed, nothing sent. */
  function Start(token: Option<string>): PollState {
    PollState(token, true, false, false, true, false, [])
  }

  /** `find(eventsCollection, {token})`. */
  function ForToken(events: seq<Queued>, token: Option<string>): (r: seq<Queued>)
    ensures forall e :: e in r <==> e in events && e.token == token
  {
    if events == [] then []
    else if events[0].token == token then [events[0]] + ForToken(events[1..], token)
    else ForToken(events[1..], token)
  }

  /**
   * The fetch keeps table order: fetching from a concatenation fetches from
   * each part in turn, and one event is kept exactly when it has the token.
   */
  lemma {:induction false} ForTokenAppend(a: seq<Queued>, b: seq<Queued>, token: Option<string>)
    ensures ForToken(a + b, token) == ForToken(a, token) + ForToken(b, token)
    ensures forall e :: ForToken([e], token) == if e.token == token then [e] else []
    decreases |a|
  {
    if a == [] {
      assert a + b == b;
    } else {
      assert (a + b)[1..] == a[1..] + b;
      ForTokenAppend(a[1..], b, token);
    }
    forall e ensures ForToken([e], token) == if e.token == token then [e] else [] {
      assert [e][1..] == [];
    }
  }

  function Ids(events: seq<Queued>): set<nat> {
    set e | e in events :: e.id
  }

  /** `remove(eventsCollection, {$in: ids})`. */
  function WithoutIds(events: seq<Queued>, ids: set<nat>): (r: seq<Queued>)
    ensures forall e :: e in r <==> e in events && e.id !in ids
  {
    if events == [] then []
    else if events[0].id in ids then WithoutIds(events[1..], ids)
    else [events[0]] + WithoutIds(events[1..], ids)
  }

  /** The stored `listen: {collection, id, filter}`. */
  function ListenValue(l: ListenInfo): Value {
    Obj([("collection", l.collection), ("id", l.id), ("filter", l.filter)])
  }

  /** One event of the reply: its fields with its id pushed onto `args`. */
  function EventValue(e: Queued): Value {
    Obj([("token", FieldValue(e.token)), ("listen", ListenValue(e.listen)), ("args", Arr(e.args + [Num(e.id)]))])
  }

  function EventValues(events: seq<Queued>): (r: seq<Value>)
    ensures |r| == |events|
    ensures forall i :: 0 <= i < |events| ==> r[i] == EventValue(events[i])
  {
    if events == [] then [] else [EventValue(events[0])] + EventValues(events[1..])
  }

  function Batch(events: seq<Queued>): Reply {
    Reply(200, Obj([("events", Arr(EventValues(events)))]))
  }

  /** How one action changes the request and the queue. */
  function Step(p: Poll, a: Action): (r: Poll)
    ensures r.state.token == p.state.token
    ensures p.state.replies <= r.state.replies && |r.state.replies| <= |p.state.replies| + 1
    ensures r.queue.nextId >= p.queue.nextId
    ensures !p.state.subscribed ==> !r.state.subscribed
    ensures p.state.groupUsed ==> r.state.groupUsed
  {
    var s := p.state;
    var q := p.queue;
    match a
    case TimeoutFires =>
      if !s.timeoutArmed then p
      else Poll(s.(timeoutArmed := false, graceArmed := true, replies := s.replies + [Batch([])]), q)
    case EventArrives(received, stored) =>
      if !s.subscribed then p
      else
        var (listen, args) := Unpack(received);
        var q' := if stored then Queue(q.events + [Queued(q.nextId, s.token, listen, args)], q.nextId + 1) else q;
        var arm := stored && !s.groupUsed;
        Poll(s.(timeoutArmed := false,
                groupArmed := s.groupArmed || arm,
                groupUsed := s.groupUsed || arm), q')
    case GroupFires(fetch) =>
      if !s.groupArmed then p
      else
        var s1 := s.(groupArmed := false);
        if fetch == FetchPending then Poll(s1, q)
        else if fetch == FetchFailed || s.replies != [] then Poll(s1.(subscribed := false), q)
        else
          var found := ForToken(q.events, s.token);
          Poll(s1.(subscribed := false, graceArmed := true, replies := [Batch(found)]),
               q.(events := WithoutIds(q.events, Ids(found))))
    case GraceFires =>
      if !s.graceArmed then p
      else Poll(s.(graceArmed := false, subscribed := false), q)
  }

  function Run(p: Poll, actions: seq<Action>): Poll
    decreases |actions|
  {
    if actions == [] then p else Run(Step(p, actions[0]), actions[1..])
  }

  /** The number of steps of a run that set `group`. */
  function Arms(p: Poll, actions: seq<Action>): nat
    decreases |actions|
  {
    if actions == [] then 0
    else
      var p' := Step(p, actions[0]);
      (if !p.state.groupUsed && p'.state.groupUsed then 1 else 0) + Arms(p', actions[1..])
  }

  // ---------------------------------------------------------------------
  // Invariants

  /**
   * At most one reply; while the time-out is armed nothing was sent and no
   * event was stored; a pending grouping timer means `group` is set.
   */
  ghost predicate Inv(s: PollState) {
    && |s.replies| <= 1
    && (s.timeoutArmed ==> s.replies == [] && !s.groupUsed)
    && (s.groupArmed ==> s.groupUsed)
  }

  /** The table's ids identify its events, and all are below the next id. */
  ghost predicate QueueWf(q: Queue) {
    && (forall e, f :: e in q.events && f in q.events && e.id == f.id ==> e == f)
    && (forall e :: e in q.events ==> e.id < q.nextId)
  }

  lemma StepQueueWf(p: Poll, a: Action)
    requires QueueWf(p.queue)
    ensures QueueWf(Step(p, a).queue)
  {
  }

  lemma StepInv(p: Poll, a: Action)
    requires Inv(p.state)
    ensures Inv(Step(p, a).state)
    ensures p.state.groupUsed ==> Step(p, a).state.groupUsed
    ensures Step(p, a).state.token == p.state.token
  {
  }

  /**
   * Over any run from a new request: at most one reply is sent, and the
   * grouping timer is armed at most once.
   */
  lemma {:induction false} RunInv(p: Poll, actions: seq<Action>)
    requires Inv(p.state)
    ensures Inv(Run(p, actions).state)
    ensures |Run(p, actions).state.replies| <= 1
    ensures Arms(p, actions) <= (if p.state.groupUsed then 0 else 1)
    decreases |actions|
  {
    if actions != [] {
      StepInv(p, actions[0]);
      RunInv(Step(p, actions[0]), actions[1..]);
    }
  }

  lemma NewRequest(token: Option<string>, q: Queue, actions: seq<Action>)
    ensures |Run(Poll(Start(token), q), actions).state.replies| <= 1
    ensures Arms(Poll(Start(token), q), actions) <= 1
  {
    RunInv(Poll(Start(token), q), actions);
  }

  /**
   * A step removes queued events only when it is the grouping timer's
   * successful fetch before any reply, and then it removes exactly the events
   * it put in the reply, which are all the events queued for the token.
   */
  lemma StepDeletesOnlyDelivered(p: Poll, a: Action)
    requires QueueWf(p.queue)
    ensures var p' := Step(p, a);
      || (forall e :: e in p.queue.events ==> e in p'.queue.events)
      || (&& a == GroupFires(FetchOk) && p.state.groupArmed && p.state.replies == []
          && p'.state.replies == [Batch(ForToken(p.queue.events, p.state.token))]
          && (forall e :: e in p.queue.events ==>
                (e !in p'.queue.events <==> e in ForToken(p.queue.events, p.state.token))))
  {
    var p' := Step(p, a);
    if a == GroupFires(FetchOk) && p.state.groupArmed && p.state.replies == [] {
      var found := ForToken(p.queue.events, p.state.token);
      forall e | e in p.queue.events ensures e !in p'.queue.events <==> e in found {
        if e !in found {
          assert e.token != p.state.token;
          forall f | f in found ensures f.id != e.id || f == e {
          }
        }
      }
    }
  }

  /**
   * When the reply has already gone out (the time-out answered first), a
   * successful fetch sends nothing and leaves every queued event in place
   * for the next poll.
   */
  lemma LateFetchKeepsEvents(p: Poll)
    requires p.state.groupArmed && p.state.replies != []
    ensures Step(p, GroupFires(FetchOk)).queue == p.queue
    ensures Step(p, GroupFires(FetchOk)).state.replies == p.state.replies
    ensures !Step(p, GroupFires(FetchOk)).state.subscribed
  {
  }

  /**
   * The batch holds every event queued for the token, in table order, each
   * with the listen it came through and its id appended to its arguments.
   */
  lemma BatchContents(events: seq<Queued>, token: Option<string>, i: int)
    requires 0 <= i < |ForToken(events, token)|
    ensures var b := Batch(ForToken(events, token));
      var e := ForToken(events, token)[i];
      && b.Reply? && b.status == 200 && b.body.Obj?
      && Lookup(b.body.props, "events").Arr?
      && |Lookup(b.body.props, "events").items| == |ForToken(events, token)|
      && Lookup(b.body.props, "events").items[i] == EventValue(e)
      && Lookup(EventValue(e).props, "token") == FieldValue(token)
      && Lookup(EventValue(e).props, "listen") == ListenValue(e.listen)
      && Lookup(EventValue(e).props, "args") == Arr(e.args + [Num(e.id)])
  {
    var e := ForToken(events, token)[i];
    assert e in ForToken(events, token);
    var props := EventValue(e).props;
    assert props[0].0 == "token";
    assert props[1..][0].0 != "token" && props[1..][1..][0].0 != "token";
    assert props[0].0 != "listen" by { assert props[0].0[0] == 't'; }
    assert props[1..][0].0 == "listen";
    assert props[0].0 != "args" by { assert props[0].0[0] == 't'; }
    assert props[1..][0].0 != "args" by { assert props[1..][0].0[0] == 'l'; }
    assert props[1..][1..][0].0 == "args";
    calc {
      Lookup(props, "args");
      Lookup(props[1..], "args");
      Lookup(props[1..][1..], "args");
      props[2].1;
    }
  }

  /**
   * The `listen` of a reply item reads back the collection, id and filter the
   * event was forwarded with, and has no other property.
   */
  lemma ListenValueFields(l: ListenInfo, k: string)
    ensures Lookup(ListenValue(l).props, "collection") == l.collection
    ensures Lookup(ListenValue(l).props, "id") == l.id
    ensures Lookup(ListenValue(l).props, "filter") == l.filter
    ensures HasKey(ListenValue(l).props, k) <==> k == "collection" || k == "id" || k == "filter"
  {
    var props := ListenValue(l).props;
    assert props[0].0 != "id" && props[0].0 != "filter" by { assert props[0].0[0] == 'c'; }
    assert props[1..][0].0 != "filter" by { assert props[1..][0].0[0] == 'i'; }
    assert props[1..][1..] == [("filter", l.filter)];
    calc {
      Lookup(props, "filter");
      Lookup(props[1..], "filter");
      Lookup(props[1..][1..], "filter");
      l.filter;
    }
    assert !HasKey(props[1..][1..][1..], k);
    assert HasKey(props[1..][1..], k) <==> k == "filter";
    assert HasKey(props[1..], k) <==> k == "id" || k == "filter";
  }

  /** An arrival that is stored queues the listen and arguments the collector unpacked, under the request's token. */
  lemma ArrivalStores(p: Poll, received: seq<Value>)
    requires p.state.subscribed
    ensures var q := Step(p, EventArrives(received, true)).queue;
      && q.events == p.queue.events + [Queued(p.queue.nextId, p.state.token, Unpack(received).0, Unpack(received).1)]
      && q.nextId == p.queue.nextId + 1
  {
  }

  /**
   * The time-out answers `{events: []}` and only when no event has arrived;
   * an arrival disarms it.
   */
  lemma TimeoutAnswersEmpty(p: Poll, received: seq<Value>, stored: bool)
    requires Inv(p.state) && p.state.timeoutArmed
    ensures Step(p, TimeoutFires).state.replies == [Batch([])]
    ensures p.state.subscribed ==> !Step(p, EventArrives(received, stored)).state.timeoutArmed
  {
  }

  /**
   * An arrival whose store fails, before any event was stored, disarms the
   * time-out without arming the grouping timer: no timer is left that could
   * answer the request.
   */
  lemma FailedStoreLeavesNoTimer(p: Poll, received: seq<Value>)
    requires Inv(p.state) && p.state.subscribed && p.state.timeoutArmed
    ensures var s := Step(p, EventArrives(received, false)).state;
      !s.timeoutArmed && !s.groupArmed && s.replies == []
  {
  }

  // ---------------------------------------------------------------------

  /** The `mm_events` table as the server holds it. */
  class EventQueue {
    var events: seq<Queued>
    var nextId: nat

    constructor ()
      ensures events == [] && nextId == 0
    {
      events := [];
      nextId := 0;
    }
  }

  /** One `/on` request with the variables its closures share. */
  class PollRequest {
    var state: PollState
    const queue: EventQueue

    /** The handler runs: arm the time-out and subscribe the collector. */
    constructor (token: Option<string>, queue: EventQueue)
      ensures state == Start(token) && this.queue == queue
    {
      state := Start(token);
      this.queue := queue;
    }

    ghost function Snapshot(): Poll
      reads this, queue
    {
      Poll(state, Queue(queue.events, queue.nextId))
    }

    /** The time-out fires. */
    method OnTimeout()
      modifies this
      ensures Snapshot() == Step(old(Snapshot()), TimeoutFires)
    {
      if state.timeoutArmed {
        state := state.(timeoutArmed := false, graceArmed := true, replies := state.replies + [Batch([])]);
      }
    }

    /** The collector is called with a forwarded event; `stored` is whether its insert succeeded. */
    method OnEvent(received: seq<Value>, stored: bool)
      modifies this, queue
      ensures Snapshot() == Step(old(Snapshot()), EventArrives(received, stored))
    {
      if !state.subscribed {
        return;
      }
      state := state.(timeoutArmed := false);
      var (listen, args) := Unpack(received);
      if stored {
        queue.events := queue.events + [Queued(queue.nextId, state.token, listen, args)];
        queue.nextId := queue.nextId + 1;
        if !state.groupUsed {
          state := state.(groupArmed := true, groupUsed := true);
        }
      }
    }

    /** The grouping timer fires and its fetch does `fetch`. */
    method OnGroup(fetch: Fetch)
      modifies this, queue
      ensures Snapshot() == Step(old(Snapshot()), GroupFires(fetch))
    {
      if !state.groupArmed {
        return;
      }
      state := state.(groupArmed := false);
      if fetch == FetchPending {
        return;
      }
      state := state.(subscribed := false);
      if fetch == FetchOk && state.replies == [] {
        var found := ForToken(queue.events, state.token);
        state := state.(graceArmed := true, replies := [Batch(found)]);
        queue.events := WithoutIds(queue.events, Ids(found));
      }
    }

    /** The grace teardown fires: `off()`. */
    method OnGrace()
      modifies this
      ensures Snapshot() == Step(old(Snapshot()), GraceFires)
    {
      if state.graceArmed {
        state := state.(graceArmed := false, subscribed := false);
      }
    }
  }
}
