/**
 * The stateful part of the client: the connection's listener list that
 * subscriptions register their `message` handler on, and one subscription
 * stream with its queue and its subscribe/teardown sequence. Each callback of
 * the connection is a method of its own, so every await point of the
 * generator is a step the caller takes.
 */
module MqttClient {
  import opened Wrappers
  import opened Topics
  import opened Matcher
  import opened Routing
  import opened Lifecycle

  /** A subscribe or unsubscribe request handed to the connection. */
  datatype Request =
    | SubscribeRequest(topics: seq<string>, options: Option<SubscribeOptions>)
    | UnsubscribeRequest(topics: seq<string>)

  /**
   * The underlying connection, reduced to what the core changes on it: its
   * list of `message` listeners and the requests sent to it. Each
   * subscription object stands for its own `handleMessage` closure.
   */
  class Connection<P, K> {
    var listeners: multiset<Subscription<P, K>>
    var requests: seq<Request>

    constructor ()
      ensures listeners == multiset{} && requests == []
    {
      listeners := multiset{};
      requests := [];
    }

    /** `client.subscribe(topics, options, callback)`; the callback is a separate step. */
    method Subscribe(topics: seq<string>, options: Option<SubscribeOptions>)
      modifies this`requests
      ensures requests == old(requests) + [SubscribeRequest(topics, options)]
    {
      requests := requests + [SubscribeRequest(topics, options)];
    }

    /** `client.unsubscribe(topics, undefined, callback)`; the callback is a separate step. */
    method Unsubscribe(topics: seq<string>)
      modifies this`requests
      ensures requests == old(requests) + [UnsubscribeRequest(topics)]
    {
      requests := requests + [UnsubscribeRequest(topics)];
    }

    /** `client.on("message", h)` adds one registration of `h`. */
    method On(h: Subscription<P, K>)
      modifies this`listeners
      ensures listeners == old(listeners) + multiset{h}
    {
      listeners := listeners + multiset{h};
    }

    /** `client.off("message", h)` removes one registration of `h`, if there is one. */
    method Off(h: Subscription<P, K>)
      modifies this`listeners
      ensures listeners == old(listeners) - multiset{h}
    {
      listeners := listeners - multiset{h};
    }
  }

  /**
   * One run of `subscribeGenerator(topics, options)`: the queue its handler
   * feeds, the phase it is in, and (as ghost state) every message the
   * connection handed to the handler and every event the generator saw.
   */
  class Subscription<P, K> {
    const conn: Connection<P, K>
    const topics: seq<string>
    const options: Option<SubscribeOptions>
    const patterns: seq<seq<string>>
    const filtering: bool
    var queue: seq<Message<P, K>>
    var phase: Phase
    ghost var received: seq<Message<P, K>>
    ghost var events: seq<Event>
    ghost var effects: seq<Effect>

    /**
     * The queue holds what the handler routed, in delivery order; the phase
     * and effect log are those of the generator's events; the handler is on
     * the connection exactly as often as the log registered it, net of removals.
     */
    ghost predicate Valid()
      reads this, conn
    {
      && patterns == SplitAll(topics)
      && filtering == ReceiveAllTopics(options)
      && queue == Delivered(filtering, patterns, received)
      && Run(events) == Some(Trace(phase, effects))
      && conn.listeners[this] == Listened(effects)
    }

    /**
     * The generator object `subscribe` returns, before its first `next()`:
     * the filters and options it will read, and what lines 44-66 derive from
     * them. Those lines run at the first `next()`, together with the
     * subscribe call of `Start`; they are computed here from the same values,
     * which the caller is taken not to change. Nothing is sent yet.
     */
    constructor (conn: Connection<P, K>, topics: seq<string>, options: Option<SubscribeOptions>)
      ensures Valid()
      ensures this.conn == conn && this.topics == topics && this.options == options
      ensures phase == Idle && queue == [] && received == [] && events == []
    {
      this.conn := conn;
      this.topics := topics;
      this.options := options;
      patterns := SplitAll(topics);
      filtering := ReceiveAllTopics(options);
      queue := [];
      phase := Idle;
      received := [];
      events := [];
      effects := [];
    }

    /**
     * The handler registered for this subscription: route one incoming
     * message. Only a registered handler is called by the connection.
     */
    method HandleMessage(topic: string, payload: P, packet: K)
      requires Valid() && conn.listeners[this] > 0
      modifies this`queue, this`received
      ensures Valid()
      ensures received == old(received) + [Message(topic, payload, packet)]
      ensures queue == old(queue) + Routed(filtering, patterns, Message(topic, payload, packet))
    {
      var m := Message(topic, payload, packet);
      DeliveredSnoc(filtering, patterns, received, m);
      received := received + [m];
      if filtering {
        var receiveArray := Split(topic);
        var i := 0;
        while i < |patterns|
          invariant 0 <= i <= |patterns|
          invariant forall j :: 0 <= j < i ==> !Match(patterns[j], receiveArray)
          invariant queue == old(queue)
          modifies this`queue
        {
          var matched := MatchLoop(patterns[i], receiveArray);
          if matched {
            assert AnyMatch(patterns, Split(m.topic));
            assert Routed(filtering, patterns, m) == [m];
            queue := queue + [m];
            return;
          }
          i := i + 1;
        }
        assert !AnyMatch(patterns, receiveArray);
      } else {
        queue := queue + [m];
      }
    }

    /** The generator starts: it issues `subscribe` and waits for the callback. */
    method Start()
      requires Valid() && phase == Idle
      modifies this`phase, this`events, this`effects, conn`requests
      ensures Valid()
      ensures phase == Subscribing && events == old(events) + [Event.Start]
      ensures conn.requests == old(conn.requests) + [SubscribeRequest(topics, options)]
    {
      conn.Subscribe(topics, options);
      RunSnoc(events, Event.Start);
      ListenedByPhase(events);
      phase := Subscribing;
      events := events + [Event.Start];
      effects := effects + [CallSubscribe];
      ListenedByPhase(events);
    }

    /**
     * The subscribe callback: on an error the generator fails and nothing is
     * registered; otherwise the handler is registered and setup resolves.
     */
    method SubscribeCallback(error: Option<string>) returns (failure: Option<Failure>)
      requires Valid() && phase == Subscribing
      modifies this`phase, this`events, this`effects, conn`listeners
      ensures Valid()
      ensures events == old(events) + [SubscribeDone(error)]
      ensures error.Some? ==> && failure == Some(SubscribeFailed(error.value))
                              && phase == Closed(failure)
                              && conn.listeners == old(conn.listeners)
      ensures error.None? ==> && failure == None && phase == Active
                              && conn.listeners == old(conn.listeners) + multiset{this}
    {
      RunSnoc(events, SubscribeDone(error));
      ListenedByPhase(events);
      if error.Some? {
        failure := Some(SubscribeFailed(error.value));
        phase := Closed(failure);
        effects := effects + [Reject(failure.value)];
      } else {
        conn.On(this);
        failure := None;
        phase := Active;
        effects := effects + [Register, Resolve];
      }
      events := events + [SubscribeDone(error)];
      ListenedByPhase(events);
    }

    /**
     * The stream stops (the consumer returns or throws, or the stop signal
     * fires): the `finally` block releases the stream and issues `unsubscribe`;
     * an error thrown in by the consumer stays pending.
     */
    method Stop(cause: StopCause)
      requires Valid() && phase == Active
      modifies this`phase, this`events, this`effects, conn`requests
      ensures Valid()
      ensures phase == Unsubscribing(Thrown(cause)) && events == old(events) + [Event.Stop(cause)]
      ensures conn.requests == old(conn.requests) + [UnsubscribeRequest(topics)]
    {
      RunSnoc(events, Event.Stop(cause));
      ListenedByPhase(events);
      conn.Unsubscribe(topics);
      phase := Unsubscribing(Thrown(cause));
      events := events + [Event.Stop(cause)];
      effects := effects + [ReleaseStream, CallUnsubscribe];
      ListenedByPhase(events);
    }

    /**
     * The unsubscribe callback: the handler is removed first, whatever the
     * outcome, and only then does teardown resolve or fail. An unsubscribe
     * error replaces a pending error of the consumer; without one, the
     * pending error is raised again.
     */
    method UnsubscribeCallback(error: Option<string>) returns (failure: Option<Failure>)
      requires Valid() && phase.Unsubscribing?
      modifies this`phase, this`events, this`effects, conn`listeners
      ensures Valid()
      ensures events == old(events) + [UnsubscribeDone(error)]
      ensures conn.listeners == old(conn.listeners) - multiset{this} && conn.listeners[this] == 0
      ensures failure == (if error.Some? then Some(UnsubscribeFailed(error.value))
                          else if old(phase).pending.Some? then Some(ConsumerFailed(old(phase).pending.value))
                          else None)
      ensures phase == Closed(failure)
    {
      RunSnoc(events, UnsubscribeDone(error));
      ListenedByPhase(events);
      conn.Off(this);
      if error.Some? {
        failure := Some(UnsubscribeFailed(error.value));
        effects := effects + [Unregister, Reject(failure.value)];
      } else if phase.pending.Some? {
        failure := Some(ConsumerFailed(phase.pending.value));
        effects := effects + [Unregister, Reject(failure.value)];
      } else {
        failure := None;
        effects := effects + [Unregister, Resolve];
      }
      phase := Closed(failure);
      events := events + [UnsubscribeDone(error)];
      ListenedByPhase(events);
    }
  }

  /** The client facade, reduced to `subscribe`. */
  class Client<P, K> {
    const conn: Connection<P, K>

    constructor (conn: Connection<P, K>)
      ensures this.conn == conn
    {
      this.conn := conn;
    }

    /**
     * `subscribe(topic, options)`: a single filter string becomes a one-element
     * list; the generator is created but does not run until it is consumed.
     */
    method Subscribe(topic: TopicArg, options: Option<SubscribeOptions>) returns (s: Subscription<P, K>)
      ensures fresh(s) && s.Valid()
      ensures s.conn == conn && s.topics == Normalize(topic) && s.options == options
      ensures s.phase == Idle && s.queue == []
    {
      s := new Subscription(conn, Normalize(topic), options);
    }
  }
}
