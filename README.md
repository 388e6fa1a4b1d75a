# momentum, server core, in Dafny

momentum is a long-polling synchronisation layer in front of a document
store. Browsers ask `/ready` for a session token. They subscribe to
collections or single documents through `/listen`. Writes go through
`/emit` and reads through `/data`, both via one request proxy. Every write
is published on an in-process event bus. `/listen` forwards the write
events to the session's delivery topic `listen:<token>`. A long poll on
`/on` collects what arrives there, stores it in the `mm_events` table and
answers with a batch.

This project models that server core and proves what it promises:

- the event bus and its topic names;
- the four mutating calls and the events they publish;
- the token table behind `/ready`, `/quit` and `isTokenValid`;
- the authorization gate and the request proxy's ladder of checks;
- the filter and listen registries;
- the `/on` delivery state machine;
- adapter selection, the MongoDB adapter's guards, and the older
  `Momentum` entry point.

Files:

| file | module | what |
|---|---|---|
| `wrappers.dfy` | `Wrappers` | `Option`, `Result` (a call that returns or throws), `Settle` (a promise that stays pending, resolves or rejects) |
| `js_values.dfy` | `JsValues` | JavaScript values, truthiness, request fields, objects as ordered property lists, `Object.assign`, `delete`, `JSON.stringify` of integers, strings, arrays and objects |
| `topics.dfy` | `Topics` | the `eventTypes` table and every topic string the server builds |
| `event_bus.dfy` | `EventBus` | the emitter as a map from topic to callback list; `on`, the off functions, `emit`, `onEvent`, `on*Touched` |
| `mutations.dfy` | `Mutations` | `insert`, `updateOne`, `updateMany`, `remove`, `callWithEvents`, `callAdapter`, `emitEvent`, `emitError`, `emitForEachItem` |
| `http.dfy` | `Http` | a handler's reply as a status and a JSON body, or no reply |
| `options.dfy` | `ServerOptions` | the option defaults and the bookkeeping collection names |
| `tokens.dfy` | `Tokens` | the `mm_tokens` table, `/ready`, `/quit`, `isTokenValid`, `invalidateTokens` |
| `authorization.dfy` | `Authorization` | `getAuthorizationStrategy`, `isAllowed` |
| `request_proxy.dfy` | `RequestProxy` | `proxyDataBaseRequest` and the `/emit` and `/data` result transforms |
| `listen.dfy` | `Listening` | `addFilter`/`getFilter`, `/listen`, `/listen/stop`, the periodic re-check, the forwarding callback |
| `long_poll.dfy` | `LongPoll` | `/on` as a state machine over timer and adapter actions |
| `mongodb.dfy` | `Mongodb` | `MongodbAdapter`: `isCompatible`, constructor, `getCollection`, the CRUD methods, `start` |
| `adapters.dfy` | `Adapters` | the adapter table, `addAdapter`, `createAdapterInstance`, and the last-compatible rule of `Momentum` |
| `momentum.dfy` | `MomentumApp` | the `Momentum` class of `src/momentum.js` |
| `server.dfy` | `Server` | the `MomentumServer` fields: adapter, options, filters, strategy, URL prefix |

Asynchronous results are inputs of the model. These are the adapter's
answers, the token check's verdict, timers firing, a filter's promise, the
random token and the current time. Each handler is then a step from the old
state and these inputs to a reply and a new state.

Where the code and its documentation differ, the model follows the code:

- `/ready` counts the caller's tokens before it purges stale ones. Stale
  tokens therefore count against the per-IP cap (`Tokens.StaleTokensCountAgainstCap`).
- `isTokenValid` only asks whether the token is in the table. It never
  looks at its age.
- The proxy echoes `args` and `method` in every reply after the token
  check, error replies included.

## Model

| member | source | states |
|---|---|---|
| Topics.NamesDistinct | src/momentum-server.js:27-33 | the five event type names, their `-error` names and the two listen names are pairwise distinct |
| Topics.NamesColonFree | src/momentum-server.js:27-33 | no event type name, error name or listen name contains a colon |
| Topics.SplitAtColon | src/momentum-server.js:814-816 | a topic `<name>:<param>` with a colon-free name determines both its name and its param |
| Topics.DataTopicInjective | src/momentum-server.js:814-816 | two data topics are equal exactly when their types and params are equal |
| Topics.DataErrorDisjoint | src/momentum-server.js:941-960 | no data topic equals any `-error` topic, so failures never reach data subscriptions |
| Topics.ListenTopicsDisjoint | src/momentum-server.js:438-465 | `listen:<token>` and every stop key differ from each other and from all data and error topics |
| Topics.CollectionTopicsExact | src/momentum-server.js:827-837 | a data topic is among a collection's touched topics exactly when it is an update-collection, remove-collection or insert topic of that collection |
| Topics.ItemTopicsExact | src/momentum-server.js:849-857 | a data topic is among an item's touched topics exactly when it is the remove-item or update-item topic of that `c:i` |
| Topics.ItemParamInjective | src/momentum-server.js:880-882 | for colon-free collection names, `c + ':' + i` names one collection and one item |
| Topics.ItemParamAmbiguous | src/momentum-server.js:880-882 | with a colon inside a collection name, two different items share their topics |
| EventBus.OnTopicsMeaning | src/momentum-server.js:785-803 | a single topic registers the callback once, on that topic alone; an empty list is accepted and registers nothing; for every accepted argument the returned off function restores the emitter exactly |
| EventBus.OnTopics | src/momentum-server.js:785-792 | the topics `on` registers on: a falsy argument (a missing value or the empty string) throws 'event must be a string or an array', a single topic becomes a one-element list, a list is used as it is; `OnTopicsMeaning` and `OnOffRoundTrip` state what registering them does |
| EventBus.AddListener | src/momentum-server.js:794-796 | one `emitter.on(t, cb)`: cb appended to t's list; its properties are stated by `AddAllAt`, `AddAllNoEmpty` and `OnRegistersOncePerTopic` |
| EventBus.RemoveListener | src/momentum-server.js:798-802 | one `emitter.removeListener(t, cb)`: the last occurrence of cb dropped from t, and t deleted once empty; its properties are stated by `RemoveAllAt`, `RemoveAllNoEmpty`, `RemoveLastSubset` and `OnOffRoundTrip` |
| EventBus.AddAllAt | src/momentum-server.js:794-796 | after `on(ts, cb)`, each topic's callback list is the old one followed by cb once per occurrence of that topic in ts |
| EventBus.RemoveAllAt | src/momentum-server.js:798-802 | the off function removes the last occurrence of cb from each topic once per occurrence in ts |
| EventBus.AddAllNoEmpty | src/momentum-server.js:794-796 | registering keeps the emitter free of empty callback lists |
| EventBus.RemoveAllNoEmpty | src/momentum-server.js:798-802 | unregistering keeps the emitter free of empty callback lists |
| EventBus.RemoveLastSubset | src/momentum-server.js:798-802 | `removeListener` leaves only callbacks that were on the topic |
| EventBus.RemoveAllSubset | src/momentum-server.js:798-802 | the off function adds no topic and no callback: whatever is left was registered before |
| EventBus.OnOffRoundTrip | src/momentum-server.js:785-803 | calling the off function that `on(ts, cb)` returned restores the emitter exactly |
| EventBus.OnRegistersOncePerTopic | src/momentum-server.js:794-796 | `on` adds cb on every topic of ts, as often as the topic occurs in ts, and leaves every other topic unchanged |
| EventBus.OffTouchesOnlyItsTopics | src/momentum-server.js:798-802 | the off function leaves every topic outside its list unchanged |
| EventBus.AddAllAppend | src/momentum-server.js:827-837 | registering on a + b is registering on a and then on b, as the touched helpers do |
| EventBus.RemoveAllAppend | src/momentum-server.js:832-836 | the combined off of the touched helpers is the parts' offs in sequence |
| EventBus.CollectionTouchedReach | src/momentum-server.js:827-837 | after `onCollectionTouched(c, cb)`, cb is reached by the update-collection, remove-collection and insert topics of c; every other data topic keeps its old callbacks; after the returned off every data topic has exactly its old callbacks, so a cb that was on none of them is on none |
| EventBus.ItemTouchedReach | src/momentum-server.js:849-857 | the same for `onItemTouched(c, i, cb)` and the two item topics of `c:i`: reach on both, and after the off every data topic has exactly its old callbacks |
| EventBus.Bus.constructor | src/momentum-server.js:96-103 | a new emitter has no topics |
| EventBus.Bus.Reset | src/momentum-server.js:86-88 | after `initializeEventsEmitter` the emitter has no topics |
| EventBus.Bus.On | src/momentum-server.js:785-803 | a bad argument throws and changes nothing; otherwise the loop registers cb on each topic in order, and the returned handle names exactly those topics |
| EventBus.Bus.Off | src/momentum-server.js:798-802 | the loop removes cb from each topic of the handle in order |
| EventBus.Bus.Emit | src/momentum-server.js:928-930 | an emit reaches the topic's callbacks in registration order, and reports whether the topic had any |
| EventBus.Bus.OnEvent | src/momentum-server.js:814-816 | `onEvent(kind, param, cb)` registers cb on `<type>:<param>` alone |
| EventBus.Bus.OnCollectionTouched | src/momentum-server.js:827-837 | registers cb on the collection's three topics and returns one off for all three |
| EventBus.Bus.OnItemTouched | src/momentum-server.js:849-857 | registers cb on the item's two topics and returns one off for both |
| Mutations.Matching | src/momentum-server.js:993 | the pre-read returns exactly the stored documents the filter selects |
| Mutations.EmitEvent | src/momentum-server.js:941-945 | `emitEvent` publishes on the data topic `<type>:<param>` with the type name first; `EmitByTopics` states that it never reaches an error topic |
| Mutations.EmitError | src/momentum-server.js:956-960 | `emitError` publishes on `<type>-error:<param>` with the error name first; `EmitByTopics` states that it never reaches a data topic |
| Mutations.CallAdapter | src/momentum-server.js:1026-1032 | a server that is not ready returns a promise that never settles; a ready one returns the adapter's promise, or throws with the adapter method; `CallWithEvents` and `WritesPublishBySettlement` state what the writes make of it |
| Mutations.InsertDocument | src/momentum-server.js:1069-1088 | `insert`: `callWithEvents` with `insertOne` or `insertMany` and the insert topic of the collection; `InsertInfoShape` and `InsertPublishes` state its info object and what it publishes |
| Mutations.UpdateOne | src/momentum-server.js:1126-1153 | `updateOne`: read the first match, reject when there is none, otherwise write and publish on the collection and on that item; `MatchingFirst` and `UpdateOnePublishes` state it |
| Mutations.WriteMany | src/momentum-server.js:991-1016 | the shared shape of `remove` and `updateMany`: pre-read the ids, write, then one collection emission and one emission per id, on data or error topics; `WriteManyPublishes`, `ManyEmissionsShape` and `ManyEmissionsTopics` state it |
| Mutations.UpdateMany | src/momentum-server.js:1165-1191 | `updateMany` is `WriteMany` on the update topics with the update in the event; `UpdateManyPublishes` states what it publishes |
| Mutations.Remove | src/momentum-server.js:991-1016 | `remove` is `WriteMany` on the remove topics without an update; `RemovePublishes` states what it publishes |
| Mutations.MatchingAppend | src/momentum-server.js:993 | the pre-read keeps store order: reading a concatenation reads each part in turn, and one document is kept exactly when the filter selects it |
| Mutations.MatchingFirst | src/momentum-server.js:1127-1133 | the document `updateOne` reads is the first one in store order that the filter selects |
| Mutations.Ids | src/momentum-server.js:994 | the pre-read ids are the matching documents' ids, one per document, in order |
| Mutations.EmitByTopics | src/momentum-server.js:941-960 | `emitEvent` never publishes on an `-error` topic and `emitError` never on a data topic |
| Mutations.EmitForEachItem | src/momentum-server.js:971-980 | a falsy emit method throws 'no method' before any emit; otherwise the loop produces exactly the per-id emissions of `ItemEmissions`, in id order |
| Mutations.ItemEmissions | src/momentum-server.js:975-979 | one emission per id, the i-th being the emission for `ids[i]` |
| Mutations.ItemEmissionsSnoc | src/momentum-server.js:975-979 | emitting for one more id appends exactly that id's emission, which is what each loop step does |
| Mutations.ItemEmissionShape | src/momentum-server.js:976-978 | an item emission is on `<type>:<c>:<id>` (or its error topic) and its object's `id` is that id, whatever the event held |
| Mutations.ItemEmissionsShape | src/momentum-server.js:975-979 | every item emission is on its own item's topic and carries its own id |
| Mutations.CallWithEvents | src/momentum-server.js:1026-1057 | an adapter method that throws makes `callWithEvents` throw with its error; otherwise the promise is the adapter's, nothing is emitted while it is pending, and once it settles each configured event is emitted with the info, the method name and the result (`emitEvent`) or the error (`emitError`) |
| Mutations.EventEmissions | src/momentum-server.js:1047-1050 | each configured event is emitted once, in order, with the info, method name and result |
| Mutations.InsertInfoShape | src/momentum-server.js:1069-1087 | the info object of `insert` holds the document under `items` exactly when the method is `insertMany` (for an untyped call, exactly when the document is an array) and under `item` otherwise, with its name, collection and options |
| Mutations.EventEmissionsTopics | src/momentum-server.js:1047-1054 | success emits only on data topics, failure only on error topics |
| Mutations.ItemEmissionsTopics | src/momentum-server.js:971-980 | the same for the per-item emissions |
| Mutations.WritesPublishBySettlement | src/momentum-server.js:1026-1191 | all four writes publish only once settled, data topics on success and error topics on failure; a server that is not ready leaves them pending with nothing published; a throwing write makes `insert` throw and `updateMany`/`remove` reject, publishing nothing |
| Mutations.CallWithEventsTopics | src/momentum-server.js:1045-1057 | a throwing method leaves no outcome; pending emits nothing, resolved emits no error topic, rejected emits no data topic |
| Mutations.InsertPublishes | src/momentum-server.js:1069-1088 | `insert` emits once, on `insert:<c>` on success and on `insert-error:<c>` on failure, only after the adapter settled, with the info, method and result; a throwing adapter method makes `insert` throw and nothing is emitted |
| Mutations.UpdateOnePublishes | src/momentum-server.js:1126-1153 | no match rejects with `JSON.stringify([c, filter]) + ' not found'` and emits nothing; otherwise it emits on `update-collection:c` and `update-item:c:<id>` of the first match, or on their error topics; a throwing read throws and a throwing write rejects, neither emitting |
| Mutations.ManyEventTailKeys | src/momentum-server.js:1171-1178 | the event's keys after `name` and `collection` are distinct and among `update`, `filter`, `options` and `result` |
| Mutations.ManyEventKeys | src/momentum-server.js:1171-1181 | the many-write event has distinct keys and neither `ids` nor `id` among them |
| Mutations.HeadEmissionShape | src/momentum-server.js:1003-1005 | the collection emission is on the collection's topic (or its error topic) and its `ids` are all the pre-read ids |
| Mutations.ManyEmissionsTopics | src/momentum-server.js:1003-1011 | a many-write publishes only on data topics when the write resolved and only on error topics when it rejected |
| Mutations.ManyEmissionsShape | src/momentum-server.js:996-1008 | one collection emission carrying every id, then one item emission per id carrying that id |
| Mutations.WriteManyPublishes | src/momentum-server.js:991-1016 | not ready emits nothing and stays pending; a failed or throwing pre-read, or a throwing write, rejects and emits nothing; otherwise the promise is the adapter's and the emissions are the collection event plus the item events, on data or on error topics as the write ended |
| Mutations.UpdateManyPublishes | src/momentum-server.js:1165-1191 | `updateMany` emits `update-collection:c` with all pre-read ids, then `update-item:c:<id>` with `id` for each id; on a failed write the same on the error topics |
| Mutations.RemovePublishes | src/momentum-server.js:991-1016 | `remove` emits the same shape on the remove topics |
| Http.ErrorReply | src/momentum-server.js:286-288 | an error reply has the given status and a body whose only key is `error`, holding the message |
| ServerOptions.CollectionNames | src/momentum-server.js:47-53 | with the default prefix the tables are `mm_tokens` and `mm_events`; for any prefix they differ |
| Tokens.CountWherePositive | src/momentum-server.js:255-260 | a count is positive exactly when some record matches the filter |
| Tokens.IsTokenValid | src/momentum-server.js:255-260 | `isTokenValid`: the token is given and the table holds a record with it; `CountTokenPositive` and `TokenTable.Validate` state it as an existence test |
| Tokens.Admit | src/momentum-server.js:279-311 | `/ready`: 429 exactly when the caller's IP is at the cap, with the table unchanged; otherwise 200 with the new record stored last; `AdmitOutcome`, `AdmitPurgesOnlyStale`, `AdmitKeepsCap` and `StaleTokensCountAgainstCap` state the rest |
| Tokens.Quit | src/momentum-server.js:329-347 | `/quit`: success exactly when the token is valid; an invalid token gives 500 and changes nothing; the table never grows; `QuitOutcome` states that the token is gone and every other record kept |
| Tokens.CountTokenPositive | src/momentum-server.js:255-260 | the token count is positive exactly when some record holds that token |
| Tokens.RemoveWhere | src/momentum-server.js:241-245 | after the removal, the table holds exactly the records the filter does not match |
| Tokens.AdmitRequestAddress | src/momentum-server.js:24-26 | behind a proxy setting `x-forwarded-for` the socket address plays no part in admission; without it the socket address is the one counted; a new token raises the count of exactly the address that was checked |
| Tokens.CountWhereAppend | src/momentum-server.js:304 | a count over a table with a record stored at its end is the count of the table plus that record's |
| Tokens.CountWhereRemoveWhere | src/momentum-server.js:295 | a removal never raises a count |
| Tokens.CountWhereRemoveAll | src/momentum-server.js:293-295 | removing every record a count matches leaves that count at zero |
| Tokens.AdmitOutcome | src/momentum-server.js:279-311 | at the cap, the reply is 429 'Too many connections' and the table is unchanged; below it, the reply is 200 with status 'success' and the new token; the table is the purged one plus exactly that record, so the token is valid |
| Tokens.AdmitPurgesOnlyStale | src/momentum-server.js:293-295 | after an admission no record older than `now - 2*timeOut` is left, and every newer one survives |
| Tokens.AdmitKeepsCap | src/momentum-server.js:284-291 | no IP is pushed above `maxTokensPerIp` by an admission |
| Tokens.StaleTokensCountAgainstCap | src/momentum-server.js:284-295 | an IP whose tokens are all stale but reach the cap is refused, although the purge would have left it none |
| Tokens.QuitOutcome | src/momentum-server.js:329-347 | an invalid token gives 500 'Invalid token <t>' and changes nothing; a valid one gives 200 success, and afterwards the token is invalid while other tokens stay |
| Tokens.TokenTable.Ready | src/momentum-server.js:279-311 | the handler's reply and new table are those of the admission rule |
| Tokens.TokenTable.QuitRoute | src/momentum-server.js:329-347 | the handler's reply and new table are those of the quit rule |
| Tokens.TokenTable.Invalidate | src/momentum-server.js:241-245 | `invalidateTokens` removes exactly the matching records |
| Tokens.TokenTable.Validate | src/momentum-server.js:255-260 | a token is valid exactly when some record holds it, whatever its age |
| Authorization.GetStrategy | src/momentum-server.js:132-136 | an unset strategy is replaced by the built-in one; a set one is returned as it is |
| Authorization.IsAllowed | src/momentum-server.js:166-186 | `isAllowed` calls the strategy with mode, method and args; `DefaultAllows` and `IsAllowedShapes` state each shape of its answer |
| Authorization.DefaultAllows | src/momentum-server.js:132-136 | with no strategy configured, `isAllowed` resolves true |
| Authorization.IsAllowedShapes | src/momentum-server.js:166-186 | a non-function throws 'Authorization strategy must be a function'; a boolean resolves to itself; a promise is passed through; any other return throws 'Authorization strategy must return true, false or a promise'; nothing else throws except the strategy itself |
| RequestProxy.EmitBase | src/momentum-server.js:590-592 | the emit transform of null or undefined throws; otherwise it starts from `result` set to `result.result`, followed by the result's own properties |
| RequestProxy.EmitTransformOf | src/momentum-server.js:589-599 | the `/emit` transform: `EmitBase`, then the three keys deleted; `EmitTransform` and `EmitTransformKeys` state the result |
| RequestProxy.Transform | src/momentum-server.js:589-612 | picks the `/emit` or the `/data` transform by route; `EmitTransform` and `DataTransformOf` state them |
| RequestProxy.Decide | src/momentum-server.js:539-573 | the ladder after a valid token: only 200, 400, 403 or 500 is sent; an unknown method gets 400; a 200 comes only from a granted authorization and a resolved call, or from a rejection or transform error with an empty reason, which the source answers `{error: ''}` with 200; `DecideLadder` and `DecideStatus` state each rung |
| RequestProxy.EndReply | src/momentum-server.js:526-537 | `end(status, data)`: `{args, method}` assigned with the data, with the inserted id pushed for `insertOne`; `ProxyEchoes`, `InsertOneEchoesId` and `EndingKeys` state it |
| RequestProxy.Proxy | src/momentum-server.js:512-576 | `proxyDataBaseRequest`: an invalid token gets 500; otherwise a reply carries the status the ladder chose, and only 200, 400, 403 or 500 is sent; `ProxyInvalidToken` and `ProxyEchoes` state its bodies |
| RequestProxy.EmitTransform | src/momentum-server.js:589-599 | the deletion loop yields the object without `message`, `ops` and `connection` and with every other key as before |
| RequestProxy.EmitTransformKeys | src/momentum-server.js:594-596 | after the transform none of the three dropped keys is present and every other key keeps its value |
| RequestProxy.DataTransformOf | src/momentum-server.js:612 | the data transform wraps the result as `{result}` |
| RequestProxy.ArgsEmpty | src/momentum-server.js:547 | non-object args (or null, which throws) and args whose length is below 1 are empty; objects without a length are not |
| RequestProxy.ProxyInvalidToken | src/momentum-server.js:517-524 | an invalid token gives 500 'Invalid token <t>' with no `args` or `method` echo |
| RequestProxy.DecideLadder | src/momentum-server.js:539-565 | an unknown method gives 400 '<m> method unknown'; then empty args give 403 'Arguments cannot be empty'; then a throwing or pending gate gives no reply, and a denial gives 403 '<m> not allowed with <json args>' |
| RequestProxy.DecideStatus | src/momentum-server.js:564-573 | after a grant, a pending call gives no reply, and otherwise the status is 500 when the result carries a truthy `error` and 200 when it does not |
| RequestProxy.EndingKeys | src/momentum-server.js:526-530 | the data of the checks' replies and of the data route never holds `args` or `method` |
| RequestProxy.ProxyEchoes | src/momentum-server.js:526-537 | every reply after the token check echoes `method`, and `args` with the inserted id appended for `insertOne`; an `insertOne` whose args are not an array gets no reply |
| RequestProxy.InsertOneEchoesId | src/momentum-server.js:532-534 | for `insertOne` the echoed args are the request's args followed by the inserted document's id |
| Listening.GetFilter | src/momentum-server.js:123-125 | `getFilter` finds a callback exactly when one was stored under the name and it is truthy |
| Listening.Listen | src/momentum-server.js:401-468 | `/listen` succeeds exactly when a collection is given, the token is valid and a named filter exists; a refusal changes nothing; a success arms the re-check of a fresh callback; `ListenRefusals`, `ItemListenSubscribes`, `CollectionListenSubscribes` and `ListenWf` state the rest |
| Listening.ListenStop | src/momentum-server.js:473-501 | `/listen/stop` succeeds exactly when a collection is given and the token is valid; a refusal changes nothing, and it only ever changes the emitter; `StopUndoesListen`, `ListenThenStop` and `ListenStopWf` state what it removes |
| Listening.CheckFires | src/momentum-server.js:447-454 | the re-check changes nothing when the token is valid or the check is not armed; an invalid token removes that listen's callbacks and disarms its check; a token check that rejects or never settles disarms the check and leaves every callback subscribed; `ListenThenExpire`, `CheckValidKeeps` and `CheckFiresWf` state the rest |
| Listening.AddThenGetFilter | src/momentum-server.js:112-125 | `getFilter` returns what the last `addFilter` stored under the name; other names are unaffected |
| Listening.Forward | src/momentum-server.js:436-446 | a forwarded event goes to `listen:<token>` with collection, id and filter first; without a filter the emit's own arguments follow; with one, the event is forwarded exactly when the filter exists and its promise resolves, and then its new arguments follow |
| Listening.ForwardReachesCollector | src/momentum-server.js:436-446 | the `/on` collector unpacks a forwarded event into the listen's collection, id and filter and the event's own (or filtered) arguments |
| Listening.ListenWf | src/momentum-server.js:401-468 | `/listen` keeps every registered callback known and fresh |
| Listening.RemoveAllWf | src/momentum-server.js:798-802 | taking a callback off some topics keeps every registered callback known and fresh |
| Listening.RunStopsWf | src/momentum-server.js:495 | running the off functions held on a stop key keeps the state well formed |
| Listening.ListenStopWf | src/momentum-server.js:473-501 | `/listen/stop` keeps every registered callback known and fresh |
| Listening.CheckFiresWf | src/momentum-server.js:447-454 | the re-check keeps every registered callback known and fresh, whatever the token check ends with |
| Listening.ListenRefusals | src/momentum-server.js:405-433 | a missing collection gives 400 'Missing collection name' before any token check; an invalid token gives 500; an unknown filter gives 400 'Unknown filter <f>'; none of them subscribes anything |
| Listening.ItemListenSubscribes | src/momentum-server.js:455-460 | an item listen adds one callback on the two item topics, touches no other topic and registers no stop key |
| Listening.CollectionListenSubscribes | src/momentum-server.js:462-465 | a collection listen adds the forwarder on the three collection topics and, on `listen-stop:<token>,<JSON [c, id, filter]>`, a callback that holds the forwarder's off |
| Listening.ItemListenIs | src/momentum-server.js:455-460 | an accepted item listen registers one forwarder, under the next callback identity, on the two item topics and arms its re-check |
| Listening.CollectionListenIs | src/momentum-server.js:462-465 | an accepted collection listen registers the forwarder on the three collection topics and the unsubscriber holding its off on the stop key, and arms the re-check |
| Listening.StopKeyOutsideData | src/momentum-server.js:465 | a stop key is never a data topic |
| Listening.ListenThenStop | src/momentum-server.js:462-498 | a collection listen followed by `/listen/stop` with the same fields replies success and leaves the forwarder on no topic; only the stop callback stays on the stop key |
| Listening.StopKeyHoldsUnsubscriber | src/momentum-server.js:462-465 | after a collection listen on a fresh stop key, that key holds exactly the callback that runs the forwarder's off |
| Listening.StopUndoesListen | src/momentum-server.js:473-501 | on a state where a forwarder was added on some topics and its unsubscriber on a fresh stop key outside them, `/listen/stop` leaves only the unsubscriber added |
| Listening.StopRunsUnsubscriber | src/momentum-server.js:473-501 | `/listen/stop` emits the stop key, and the off function held there runs |
| Listening.ListenThenExpire | src/momentum-server.js:447-454 | when the re-check finds the token invalid, the forwarder is removed from every topic and the timer stops |
| Listening.ExpireUndoesListen | src/momentum-server.js:447-454 | a failed re-check of a forwarder added on some topics takes it off all of them and disarms the re-check |
| Listening.CheckValidKeeps | src/momentum-server.js:447-454 | a re-check that finds the token valid changes nothing |
| Listening.FailedCheckKeepsForwarder | src/momentum-server.js:447-454 | after an accepted listen, a re-check whose token check rejects leaves the emitter as it was and stops the timer, so no later re-check can take the forwarder off |
| LongPoll.ForToken | src/momentum-server.js:372 | the fetch returns exactly the queued events for the request's token |
| LongPoll.Step | src/momentum-server.js:352-396 | one timer or adapter action of `/on`: the token is kept, replies only grow and by at most one, event ids are never reused, an unsubscribed request stays so, and `group` once set stays set; `StepInv`, `RunInv` and `StepDeletesOnlyDelivered` state the rest |
| LongPoll.ForTokenAppend | src/momentum-server.js:372 | the fetch keeps table order: fetching from a concatenation fetches from each part in turn, and one event is kept exactly when it has the token |
| LongPoll.WithoutIds | src/momentum-server.js:384-385 | the removal keeps exactly the queued events whose ids were not delivered |
| LongPoll.StepQueueWf | src/momentum-server.js:365-369 | every step keeps the queued ids distinct and below the next id |
| LongPoll.StepInv | src/momentum-server.js:352-396 | every action keeps these true: at most one reply; an armed time-out means nothing was sent or stored; a pending group timer means `group` is set |
| LongPoll.RunInv | src/momentum-server.js:352-396 | over any run of actions the invariant holds, at most one reply is sent, and `group` is set at most once |
| LongPoll.NewRequest | src/momentum-server.js:352-396 | a new request gets at most one reply and arms its grouping timer at most once, whatever happens |
| LongPoll.StepDeletesOnlyDelivered | src/momentum-server.js:370-387 | a step removes queued events only when the grouping fetch answers before any reply, and then it removes exactly the events of the batch it sends |
| LongPoll.LateFetchKeepsEvents | src/momentum-server.js:373-374 | when the reply has already gone out, the grouping fetch sends nothing, leaves the queue unchanged and unsubscribes |
| LongPoll.BatchContents | src/momentum-server.js:375-382 | the batch lists every event queued for the token, in table order, each with its token, its `listen` object and its id appended to `args` |
| LongPoll.ListenValueFields | src/momentum-server.js:366-368 | the stored `listen` is the object `{collection, id, filter}` with exactly those keys |
| LongPoll.ArrivalStores | src/momentum-server.js:363-369 | an arriving event that is stored is queued under the request's token, with the listen and arguments the collector unpacked and the next id |
| LongPoll.TimeoutAnswersEmpty | src/momentum-server.js:356-364 | the time-out replies `{events: []}`, and an arriving event disarms it |
| LongPoll.FailedStoreLeavesNoTimer | src/momentum-server.js:364-371 | if the first event's store fails, the time-out is cleared and no grouping timer is armed: no timer is left to answer the request |
| LongPoll.PollRequest.OnTimeout | src/momentum-server.js:356-359 | the time-out step on the request's variables |
| LongPoll.PollRequest.OnEvent | src/momentum-server.js:363-371 | the arrival step: the time-out is cleared, the event is stored with the request's token, and `group` is armed if it was not set |
| LongPoll.PollRequest.OnGroup | src/momentum-server.js:371-388 | the grouping step: unsubscribe; reply with the batch and delete it only if nothing was sent yet |
| LongPoll.PollRequest.OnGrace | src/momentum-server.js:392-394 | the grace teardown unsubscribes |
| Mongodb.IndexFrom | src/adapter/mongodb.js:11 | `indexOf` returns the first position where the text occurs, or -1 when it does not occur |
| Mongodb.IsCompatible | src/adapter/mongodb.js:10-12 | `isCompatible`: `indexOf('mongodb://') === 0`; `CompatibleIffPrefix` and `CompatibleExamples` state it |
| Mongodb.CompatibleIffPrefix | src/adapter/mongodb.js:10-12 | a connector is compatible exactly when it starts with `mongodb://` |
| Mongodb.CompatibleExamples | src/adapter/mongodb.spec.js:4-7 | `mongodb://foo` is compatible and `mysql://foo` is not |
| Mongodb.BadNameExactly | src/adapter/mongodb.js:14-17 | the collection-name guard lets through exactly the non-empty strings |
| Mongodb.MongodbAdapter.constructor | src/adapter/mongodb.js:5-8 | the url is stored unchanged and there is no connection yet |
| Mongodb.MongodbAdapter.GetCollection | src/adapter/mongodb.js:14-20 | a bad name throws 'Collection name must be a non-empty string'; a good name without a connection throws a different error; otherwise it gives that collection of the connection |
| Mongodb.MongodbAdapter.Crud | src/adapter/mongodb.js:37-67 | every CRUD method throws the name error for a bad name, and reaches the driver exactly when the name is good and the adapter is connected |
| Mongodb.MongodbAdapter.Start | src/adapter/mongodb.js:22-35 | a failed connect rejects with the driver's error and leaves `db` as it was; a successful one stores the connection and resolves with it |
| Mongodb.FailedStartKeepsNoDb | src/adapter/mongodb.js:22-35 | after a failed start every CRUD call still throws |
| Adapters.Upsert | src/momentum-server.js:64-66 | `addAdapter` replaces an existing entry in place or appends a new one, leaving the other entries unchanged |
| Adapters.UpsertUnique | src/momentum.js:16-18 | the table's names stay distinct |
| Adapters.FirstCompatible | src/momentum-server.js:12-23 | the server's choice is null exactly when no entry is compatible; otherwise it is a compatible entry with no compatible entry before it |
| Adapters.LastCompatible | src/momentum.js:8-15 | `Momentum`'s choice is empty exactly when no entry is compatible; otherwise it is a compatible entry with no compatible entry after it |
| Adapters.CreateAdapterInstance | src/momentum-server.js:12-23 | the `shift` loop returns the first compatible adapter, or null |
| Adapters.InitialSelection | src/momentum-server.js:9-23 | with the built-in table, a MongoDB adapter is chosen exactly for `mongodb://` connectors, by both rules |
| Adapters.RulesAgreeOnOne | src/momentum.js:8-15 | when at most one entry is compatible, first and last agree |
| Adapters.RulesDifferOnTwo | src/momentum.js:8-15 | with two compatible entries the server takes the first and `Momentum` the last |
| Adapters.OnlyCompatible | src/momentum-server.js:12-23 | a table with one compatible entry selects it under both rules |
| Adapters.AddedAdapterSelected | src/momentum.js:16-18 | after `addAdapter(name, A)`, a connector that only A accepts selects `name` under both rules |
| Adapters.Registry.constructor | src/momentum.js:3-5 | the table starts with the MongoDB adapter alone |
| Adapters.Registry.AddAdapter | src/momentum.js:16-18 | `addAdapter` inserts or replaces the entry, keeping names distinct |
| MomentumApp.Momentum.constructor | src/momentum.js:8-15 | the loop keeps the last compatible adapter; with none the field stays unassigned |
| MomentumApp.IsNaN | src/momentum.js:27 | `isNaN` of the argument of `start`, for the values a caller can pass; `StartDispatch` states which of them are ports |
| MomentumApp.Momentum.LinkApplication | src/momentum.js:19-21 | stores the application unchanged and nothing else |
| MomentumApp.Momentum.SetApplicationPort | src/momentum.js:22-24 | stores the port unchanged and nothing else |
| MomentumApp.Momentum.Start | src/momentum.js:25-38 | a missing or `undefined` argument becomes `null`; an argument that converts to a number becomes `appPort`, with `linkedApp` null; anything else becomes `linkedApp`, with `appPort` null; `app` is the linked application when truthy, else the fresh one |
| MomentumApp.StartDispatch | src/momentum.js:25-32 | a number or numeric string is a port; an object or a non-numeric string is an application; no argument or `undefined` is a null port |
| MomentumApp.StartWithPort | src/momentum.js:8-38 | a constructed `Momentum` started on port n has `appPort` n, the fresh application and the last compatible adapter |
| MomentumApp.StartWithApp | src/momentum.js:25-38 | started with an application object, it has a null port and keeps that application |
| Server.MomentumServer.constructor | src/momentum-server.js:43-56 | a new server is not ready, has the default options, no filters and no strategy or prefix, and the first compatible adapter |
| Server.MomentumServer.AddFilter | src/momentum-server.js:112-114 | sets or replaces one dictionary entry and changes nothing else |
| Server.MomentumServer.SetAuthorizationStrategy | src/momentum-server.js:146-150 | stores the strategy and changes nothing else |
| Server.MomentumServer.SetUrlPrefix | src/momentum-server.js:196-200 | stores the prefix and changes nothing else |
| Server.MomentumServer.GetUrlPrefix | src/momentum-server.js:207-209 | the prefix is never falsy: the stored one when truthy, otherwise `/api/mm/` |
| Server.FreshServerDefaults | src/momentum-server.js:43-56 | a fresh server allows every request, uses `/api/mm/` and knows no filter |
| Server.EmptyPrefixFallsBack | src/momentum-server.js:196-209 | setting an empty prefix falls back to `/api/mm/` |

## Left out

- Express routing, body parsing and the request and response objects. A
  handler's result is a status and a JSON body, or no reply at all.
- Starting and stopping the server and the adapter, the TCP "quit" socket
  of `src/momentum.js`, and the express application's `listen`. These are
  network I/O.
- `broadcastLibrary`, a file read plus minification.
- The promise aggregation of `start`/`stop` and the `readyPromises` queue.
  Readiness is an input (`ready` of `Mutations.CallAdapter`), and `/ready`
  is modelled once the server is ready.
- Real timers and clocks. `setTimeout`, `clearTimeout`, the `timeOut/4`
  grace teardown and the listen re-check are fire actions. The time is a
  parameter.
- `randomstring`. The issued token is a parameter, so its 24-character
  alphanumeric format is not modelled.
- The MongoDB driver and its query language (`$lt`, `$in`, cursors). The
  store is a map from collection to documents, and a filter is a predicate.
- The `JSON.stringify`/`JSON.parse` sanitising round trips of the proxy and
  of `/on`. String escaping in `JsValues.Json` is not modelled either, and
  numbers are integers only.
- The events that the bookkeeping writes to `mm_tokens` and `mm_events`
  publish through `insert`/`remove`. The token and event tables are plain
  sequences.
- `getItemId` and `getFilterFromItemId` delegate to the adapter. Neither
  `src/adapter/mongodb.js` nor `src/adapter/interface.js` defines them, so
  ids are given with the documents.
- `src/adapter/interface.js` is the abstract store boundary and is not part
  of this model.
- The dispatch `this[method](...args)` of the proxy is a parameter (the
  called method's settled outcome).
- The client library under `lib/` and the example and test harnesses.
- `Tokens.Admit`: a failure of the count, purge or insert that `/ready`
  performs leaves the request unanswered; the model assumes they succeed.
- `Tokens.Quit`: likewise for a failing `invalidateTokens`.
- `Listening.Listen`, `Listening.ListenStop`, `RequestProxy.Proxy`: the
  token check is taken as its resolved verdict. Its promise has no `catch`,
  so a rejected `isTokenValid` leaves `/listen`, `/listen/stop` and every
  proxied request unanswered, with nothing changed. The model does not
  represent that case. `Listening.CheckFires` does take a rejected check.
- `LongPoll.Step`: the insert of an arriving event is folded into the
  arrival step, and the removal of delivered events is assumed to succeed.
- `LongPoll.EventValue`: the adapter's own id field of a stored event is
  not part of the reply object; the id appears only at the end of `args`.
- `EventBus.Bus`: the emitter class of `src/event/emitter.js` is not part
  of this model. Node's `EventEmitter` behaviour is assumed: `on` appends,
  `removeListener` drops the last occurrence and deletes an emptied topic,
  and `emit` calls the listeners registered when it starts.
- `Mutations.CallWithEvents`, `Mutations.WriteMany`: a rejection is carried
  as its string form. The source emits the rejection value itself, usually an
  `Error` object, as the last argument of the error events. `remove` and
  `updateMany` also put it in the event as `result`. A server-side listener
  receives that object, and `/on` serialises a plain `Error` as `{}`. Only
  the proxy's `error + ''` produces the string the model carries.
- `Mutations.CallWithEvents`: an exception thrown by a bus listener inside
  the `then` handler makes `callWithEvents` call `emitError` as well; the
  model lets listeners return normally.
- `Mutations.WriteMany`: the same holds for `remove` and `updateMany`, whose
  `then(emitEvent).catch(emitError)` chain also runs the error emits after a
  listener throws; the model lets listeners return normally.
- `Listening.Listen`: the body fields `token`, `collection`, `id` and
  `filter` are taken as strings. A JSON body can carry a number there, and
  `JSON.stringify` then writes it unquoted in the stop key (`[5,"",""]`
  rather than `["5","",""]`); the model does not represent that case.
- `Listening.Forward`: a filter promise that rejects, or a listener that
  throws, forwards nothing; exceptions inside emitter callbacks are not
  propagated.
- `Listening.GetFilter`: the `filters` dictionary is a plain object, so a
  name such as `toString` finds an inherited property; the model sees only
  names added by `addFilter`.
- `Listening.ListenThenStop`: the stop callback itself is never removed
  from the stop key. The model keeps this behaviour; it is not a defect of
  the model.
- `RequestProxy.ArgsEmpty`: a `length` that is a string, an array or an
  object is compared with JavaScript's coercions only for integer lengths.
- `RequestProxy.EmitBase`: the texts of engine-generated `TypeError`s are
  fixed strings.
- `MomentumApp.IsNaN`: strings with spaces, decimals, exponents, hex
  digits or `Infinity` count as not numeric, while JavaScript converts
  them; only signed decimal integers are recognised.
- `Adapters.FirstCompatible`: `Object.keys` lists integer-like keys first;
  the model keeps insertion order for all names. The connection arguments
  are a single string.
