# MQTT subscription streams: topic matching and handler lifecycle

This project models the core of a small MQTT client wrapper for Node.js
(`src/MqttClient.ts`). The wrapper turns the callback-driven `message`
events of an MQTT connection into one stream of messages per call to
`subscribe`. The model covers four parts:

- **Topic levels** (`Topics`). `topic.split('/')` turns a topic or a topic filter
  into its levels. `subscribe` also turns a single filter string into a
  one-element list.
- **The matcher** (`Matcher`). `match(patternArray, receiveArray)` handles the
  wildcards `+` (one level) and `#` (the rest). `Match` is a recursive
  function. `MatchLoop` is the source's index loop, proved equal to it. The
  lemmas characterise `Match` completely:
  - For a filter without `#`, it holds when the lengths are equal and every
    level is `+` or equal to the topic's level.
  - For a filter whose first `#` is at index k, it holds when the topic has
    more than k levels and the first k levels match.
- **Routing** (`Routing`). The handler is chosen by `receiveAllTopics`. With the
  flag true, a message is enqueued once if any filter matches its split topic,
  and dropped otherwise. With the flag false or absent, every message the
  connection delivers is enqueued, whatever its topic. `Delivered` gives the
  queue's contents for any sequence of deliveries.
- **Lifecycle** (`Lifecycle`, `MqttClient`). `subscribeGenerator` is a state
  machine: Idle → Subscribing → Active → Unsubscribing → Closed. Subscribing
  can also go straight to Closed with a subscribe error. An error the consumer
  throws into the generator at its `yield` stays pending in Unsubscribing and
  is raised again once the `finally` block completes, unless the unsubscribe
  callback reports an error of its own, which replaces it. Each step logs its
  effects in order: the subscribe call, handler registration, stream release,
  the unsubscribe call, handler removal, and resolution or rejection. The
  lemmas prove the following:
  - The handler is registered exactly when the subscribe callback reports no
    error.
  - It is removed exactly once, whether or not unsubscribe fails.
  - It is removed just before the teardown's result is propagated.
  - It is on the listener list only while the stream is Active or
    Unsubscribing.

  The classes `Connection`, `Subscription` and `Client` are the imperative
  form:
  - The connection's listener list is a multiset of subscriptions. Each
    subscription object stands for its own `handleMessage` closure.
  - The queue is a sequence field.
  - Each callback of the connection is a method. Its success or error is an
    input.
  - `Subscription.Valid()` ties the real listener count and the queue to the
    pure functions above.

The code, not the MQTT standard, is modelled:
- The topic-exhausted test (line 25) runs before the `#` test (line 28).
  So `a/#` does not match `a`. Section 4.7.1.2 of the OASIS MQTT 3.1.1
  standard says `sport/#` also matches `sport`.
- A `#` in a non-final position ends the match with success, provided the
  topic still has a level at that position. Later filter levels are never
  looked at.
- The `$`-topic rule of section 4.7.2 of MQTT 3.1.1 is not implemented in the code, so it is
  not in the model.
- Filters are a list, not a set. The list may be empty or contain duplicates,
  and the model accepts either, as the code does.

Files: `wrappers.dfy` (Option), `topics.dfy`, `matcher.dfy`, `routing.dfy`,
`lifecycle.dfy`, `mqtt_client.dfy`.

## Model

| member | source | states |
|---|---|---|
| `Topics.Split` | src/MqttClient.ts:46 | `split('/')` gives one more level than the string has separators, so always at least one level (`""` gives `[""]`); empty levels are kept |
| `Topics.SplitGivesLevels` | src/MqttClient.ts:46 | no level produced by the split contains `/` |
| `Topics.JoinSplit` | src/MqttClient.ts:46 | joining the split levels with `/` gives the original string back |
| `Topics.SplitJoin` | src/MqttClient.ts:46 | splitting the join of one or more `/`-free levels gives those levels back |
| `Topics.SplitSeparated` | src/MqttClient.ts:50 | a separator after a `/`-free head ends the first level: `split(h + "/" + t) == [h] + split(t)` |
| `Topics.Normalize` | src/MqttClient.ts:119-122 | a single topic string becomes the one-element list of it; a list passes through unchanged |
| `Matcher.MatchLoop` | src/MqttClient.ts:23-36 | the index loop with its three early returns and final length test computes exactly `Match` |
| `Matcher.MatchWithoutMultiLevel` | src/MqttClient.ts:24-35 | without `#`, match holds iff both have the same length and every filter level is `+` or equal to the topic level at that index (both directions) |
| `Matcher.MatchAtMultiLevel` | src/MqttClient.ts:24-30 | with the first `#` at index k, match holds iff the topic has more than k levels and levels 0..k-1 match under the `+`/equality rule (both directions) |
| `Matcher.IgnoresLevelsAfterMultiLevel` | src/MqttClient.ts:28-29 | replacing whatever follows the first `#` does not change the result |
| `Matcher.MultiLevelFirstMatchesNonEmpty` | src/MqttClient.ts:25-29 | a filter starting with `#` matches every non-empty topic and not the empty one |
| `Matcher.ParentNotMatched` | src/MqttClient.ts:25-29 | `prefix + ["#"]` never matches a topic with no level at the `#` position, so `["a","#"]` does not match `["a"]` |
| `Matcher.EmptyFilter` | src/MqttClient.ts:24-35 | the empty filter matches the empty topic and nothing else |
| `Matcher.LengthMismatch` | src/MqttClient.ts:24-35 | a filter without `#` never matches a longer or shorter topic (`["a","+"]` vs `["a"]` is false) |
| `Matcher.Examples` | src/MqttClient.ts:23-36 | worked cases as the loop computes them, including `["a","#"]` not matching `["a"]` but matching `["a",""]`, and `+` matching an empty level |
| `Routing.ReceiveAllTopics` | src/MqttClient.ts:48 | `options?.receiveAllTopics ?? false` is true exactly when options are given and the flag is `true`; absence of either means false |
| `Routing.SplitAll` | src/MqttClient.ts:46 | `topics.map(topic => topic.split('/'))` gives one level sequence per filter |
| `Routing.SplitAllLevels` | src/MqttClient.ts:46 | the i-th level sequence is the split of the i-th filter: at least one level, none containing `/`, and joining it gives the filter back |
| `Routing.NormalizedFilters` | src/MqttClient.ts:119-124 | a single filter string routes exactly what its own split matches; a list routes what one of its members matches (both directions) |
| `Routing.Routed` | src/MqttClient.ts:48-66 | one delivery appends at most one record, only the message itself (topic, payload, packet unchanged), and appends it iff the flag is off or some filter matches the split topic |
| `Routing.DeliveredAppend` | src/MqttClient.ts:53-57 | what later deliveries enqueue comes after what earlier ones enqueued (the queue is appended to, never reordered) |
| `Routing.DeliveredPassAll` | src/MqttClient.ts:62-66 | with the flag off, the queue receives exactly the delivered messages, unchanged and in delivery order (FIFO) |
| `Routing.DeliveredFiltered` | src/MqttClient.ts:49-61 | with the flag on, each message occurs in the queue as often as it was delivered if some filter matches its topic, and never otherwise |
| `Routing.DeliveredLength` | src/MqttClient.ts:48-66 | the queue never grows by more entries than there were deliveries |
| `Routing.MultiLevelTopicReceivesAll` | src/MqttClient.ts:46-61 | with the flag on, a subscription to `#` enqueues every message, even one on the empty topic, since a split topic always has a level |
| `Routing.TopicParentNotMatched` | src/MqttClient.ts:25-29 | on strings, `a/#` does not match topic `a` but does match `a/` |
| `Routing.FilteredScenario` | src/MqttClient.ts:46-61 | with the flag on, `area/+/kind` takes `area/room/kind` for any room and drops `area/room/other` (so `sensors/+/temp` takes `sensors/room1/temp`, not `sensors/room1/humidity`) |
| `Routing.UnfilteredScenario` | src/MqttClient.ts:62-66 | with the flag off, any message is enqueued whatever the filters, so `alerts/fire` reaches a `sensors/+/temp` stream |
| `Lifecycle.Step` | src/MqttClient.ts:68-92 | Closed is terminal and every accepted event moves the generator strictly forward |
| `Lifecycle.Run` | src/MqttClient.ts:68-92 | the generator driven through its await points from a fresh start: every accepted event advances it, so at most four events are accepted |
| `Lifecycle.RunFollowsHistory` | src/MqttClient.ts:68-92 | for every sequence of events the generator accepts, the effects so far are exactly the fixed history of the phase reached (subscribe, register, resolve, release, unsubscribe, unregister, settle) |
| `Lifecycle.HistoryCount` | src/MqttClient.ts:68-92 | each connection call occurs at most once in a history: subscribe once started, register once set up, release and unsubscribe once teardown began, unregister once it ended |
| `Lifecycle.ListenedByPhase` | src/MqttClient.ts:72-85 | the handler's net registrations are 1 while Active or Unsubscribing and 0 in every other phase |
| `Lifecycle.TeardownOnce` | src/MqttClient.ts:82-92 | once closed, the stream was released, unsubscribe issued and the handler removed exactly as often as it was registered: once, or never if subscribing failed |
| `Lifecycle.RegisteredIffSubscribed` | src/MqttClient.ts:68-75 | the handler is registered iff the subscribe callback reported no error (both directions) |
| `Lifecycle.EffectOrder` | src/MqttClient.ts:72-90 | registration comes right after the subscribe call and right before setup resolves; removal comes right after release and the unsubscribe call and right before the result (error or success) is propagated |
| `Lifecycle.TeardownIgnoresCause` | src/MqttClient.ts:79-84 | consumer return, an error thrown in at the `yield` and the stop signal lead to the same release and unsubscribe call; only a thrown error is left pending |
| `Lifecycle.TeardownResult` | src/MqttClient.ts:79-91 | after a stop and the unsubscribe callback an active generator closes with the unsubscribe error if there is one, else with the error thrown in at the `yield`, else normally |
| `MqttClient.Subscription.constructor` | src/MqttClient.ts:44-48 | a new stream has an empty queue, the split filters, the chosen handler kind, is Idle and has sent nothing |
| `MqttClient.Subscription.HandleMessage` | src/MqttClient.ts:49-66 | called only while registered on the connection, the handler appends `Routed(...)` to the queue (the loop over filters stops at the first match) and keeps the queue equal to `Delivered` of all deliveries so far |
| `MqttClient.Subscription.Start` | src/MqttClient.ts:68 | the subscribe request for the filters (with the options) is issued and nothing is registered yet |
| `MqttClient.Subscription.SubscribeCallback` | src/MqttClient.ts:68-75 | on error the generator fails with a subscribe error and the listener list is unchanged; otherwise the handler is added once and the stream becomes Active |
| `MqttClient.Subscription.Stop` | src/MqttClient.ts:77-84 | on any stop the stream is released and one unsubscribe request for the same filters is issued; an error thrown in by the consumer is kept pending |
| `MqttClient.Subscription.UnsubscribeCallback` | src/MqttClient.ts:80-92 | the handler is removed (no registration of it remains) whether or not unsubscribe erred; then the generator closes with the unsubscribe error, else the pending error thrown in by the consumer, else none |
| `MqttClient.Connection.Subscribe` | src/MqttClient.ts:68 | `client.subscribe(topics, options, callback)` records one subscribe request with exactly those filters and options |
| `MqttClient.Connection.On` | src/MqttClient.ts:72 | `client.on("message", h)` adds one registration of `h` and changes no other listener |
| `MqttClient.Connection.Unsubscribe` | src/MqttClient.ts:84 | `client.unsubscribe(topics, undefined, callback)` records one unsubscribe request for those filters |
| `MqttClient.Connection.Off` | src/MqttClient.ts:85 | `client.off("message", h)` removes one registration of `h`, if any, and changes no other listener |
| `MqttClient.Client.Subscribe` | src/MqttClient.ts:119-124 | `subscribe` creates a fresh Idle stream over the normalised filter list with the given options |

## Left out

- `ConcurrentQueue`, `Signal`, `AsyncStream.getMultiple` and `messageStream.return()` (lines 2, 77, 83) belong to a library whose source is not part of this model. The queue is a sequence that the handler only appends to. Taking messages from it and blocking on it are not modelled. The stream's release is one logged effect.
- The async iterator itself is not modelled: `for await`, `yield` and cancellation by the stop signal (lines 78-81, 127). Their await points are steps that the caller of `Subscription` takes in order. An event that cannot reach the generator in its current phase is refused (`Step` gives `None`). In JavaScript a `return()` or `throw()` while the generator is awaiting the subscribe callback is queued until it reaches its `yield`.
- `MqttClient.Subscription.constructor`: the filter list and the options are treated as values, fixed when `subscribe` is called. In the source a list argument is the caller's own array (lines 119-123 wrap only a single string in a new one), and the generator reads it and the options only at its first `next()` (lines 46, 48, 68) and reads the array again at teardown (line 84). The model assumes the caller changes neither. A filter pushed onto the array before iterating, which the source would subscribe and route, is not seen. A filter pushed after setup, which the source would unsubscribe without having subscribed it, is not seen either. The `Stop` row's "same filters" rests on this assumption.
- `Lifecycle.Step`: a `return()` or `throw()` on a generator that has not started yet (Idle) closes it at once without running lines 44-92, so with no subscribe and no teardown. `Step` refuses a stop in Idle, so that path is not modelled.
- `MqttClient.Subscription.Stop`: when the consumer ends the stream, the `for await` at line 79 closes the message stream's iterator before line 83 calls `return()` on it again; for the stop signal only line 83 does. The model logs one release for every cause.
- `MqttClient.Connection.Off`: the model assumes that `off` removes one registration of the listener, as Node's EventEmitter `removeListener` does, and that `on` adds one even when the listener is already registered. That library is not part of this model.
- How the connection dispatches one incoming message to every registered listener is the `mqtt` library's EventEmitter, not this code. `HandleMessage` is the effect of one such call on one subscription.
- `connect`, `publish`, `close`, `create` and the `connected`/`reconnecting` getters (lines 96-117, 126-139) are thin promise wrappers over network I/O and are not modelled.
- The `mqtt` subscribe options other than `receiveAllTopics` (QoS and the rest) are not modelled. Only the options value is recorded in the subscribe request. Payloads (`Buffer`) and packets are opaque type parameters.
- `src/index.ts` only re-exports, and the option and message type files only declare shapes. Their shapes are used here as `SubscribeOptions` and `Message`.
- Interleaving of callbacks with the consumer is not modelled. Each callback is one atomic step, as in single-threaded JavaScript.
