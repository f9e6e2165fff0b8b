/**
 * The lifecycle of one subscription stream, as a state machine driven by the
 * events that reach the generator: it starts (issuing `subscribe`), the
 * subscribe callback fires with or without an error, the stream stops (the
 * consumer returns or throws, or the client's stop signal fires), and the
 * unsubscribe callback fires with or without an error. Each step records the
 * effects it has, in order, on the connection and on the consumer.
 */
module Lifecycle {
  import opened Wrappers

  /** Why a generator settles with an error. */
  datatype Failure =
    | SubscribeFailed(cause: string)
    | UnsubscribeFailed(cause: string)
    | ConsumerFailed(cause: string)  // thrown into the generator at its `yield`, raised again after `finally`

  datatype Phase =
    | Idle
    | Subscribing
    | Active
    | Unsubscribing(pending: Option<string>)  // the consumer's error the `finally` block will raise again
    | Closed(failure: Option<Failure>)

  /**
   * What ends the `for await` loop. `ConsumerReturned` is a `return()` on the
   * generator, which is also how an exception in the consumer's own loop body
   * reaches it; `ConsumerThrew` is a `throw(e)` on the generator while it is
   * suspended at its `yield`; `StopSignal` is the client's stop signal ending
   * the message stream. The `finally` block runs the same teardown for all three.
   */
  datatype StopCause = ConsumerReturned | ConsumerThrew(error: string) | StopSignal

  /** The error a stop leaves pending until the `finally` block completes. */
  function Thrown(c: StopCause): (pending: Option<string>)
    ensures pending.Some? <==> c.ConsumerThrew?
    ensures pending.Some? ==> pending.value == c.error
  {
    if c.ConsumerThrew? then Some(c.error) else None
  }

  datatype Event =
    | Start
    | SubscribeDone(error: Option<string>)
    | Stop(cause: StopCause)
    | UnsubscribeDone(error: Option<string>)

  datatype Effect =
    | CallSubscribe      // client.subscribe(topics, options, callback)
    | Register           // client.on("message", handleMessage)
    | ReleaseStream      // messageStream.return()
    | CallUnsubscribe    // client.unsubscribe(topics, undefined, callback)
    | Unregister         // client.off("message", handleMessage)
    | Resolve            // the awaited promise resolves
    | Reject(failure: Failure)  // the awaited promise rejects; the generator throws

  datatype Trace = Trace(phase: Phase, effects: seq<Effect>)

  /** Position of a phase along the lifecycle. */
  function Rank(p: Phase): nat
  {
    match p
    case Idle => 0
    case Subscribing => 1
    case Active => 2
    case Unsubscribing(_) => 3
    case Closed(_) => 4
  }

  /**
   * One step of the generator; `None` when the event cannot reach it in this
   * phase. Closed is terminal and every step moves strictly forward.
   */
  function Step(p: Phase, e: Event): (r: Option<(Phase, seq<Effect>)>)
    ensures p.Closed? ==> r.None?
    ensures r.Some? ==> Rank(r.value.0) > Rank(p)
  {
    match (p, e)
    case (Idle, Start) => Some((Subscribing, [CallSubscribe]))
    case (Subscribing, SubscribeDone(Some(c))) =>
      Some((Closed(Some(SubscribeFailed(c))), [Reject(SubscribeFailed(c))]))
    case (Subscribing, SubscribeDone(None)) => Some((Active, [Register, Resolve]))
    case (Active, Stop(c)) => Some((Unsubscribing(Thrown(c)), [ReleaseStream, CallUnsubscribe]))
    case (Unsubscribing(_), UnsubscribeDone(Some(c))) =>
      Some((Closed(Some(UnsubscribeFailed(c))), [Unregister, Reject(UnsubscribeFailed(c))]))
    case (Unsubscribing(Some(x)), UnsubscribeDone(None)) =>
      Some((Closed(Some(ConsumerFailed(x))), [Unregister, Reject(ConsumerFailed(x))]))
    case (Unsubscribing(None), UnsubscribeDone(None)) => Some((Closed(None), [Unregister, Resolve]))
    case _ => None
  }

  /**
   * The events in order from a fresh generator; `None` if one of them cannot
   * happen. Every accepted event advances the phase, so a generator accepts
   * at most four events.
   */
  function Run(events: seq<Event>): (r: Option<Trace>)
    ensures r.Some? ==> |events| <= Rank(r.value.phase) <= 4
  {
    if |events| == 0 then Some(Trace(Idle, []))
    else
      match Run(events[..|events| - 1])
      case None => None
      case Some(t) =>
        match Step(t.phase, events[|events| - 1])
        case None => None
        case Some(r) => Some(Trace(r.0, t.effects + r.1))
  }

  /** Running one more event is one more step. */
  lemma RunSnoc(events: seq<Event>, e: Event)
    ensures Run(events + [e]) ==
              match Run(events)
              case None => None
              case Some(t) =>
                match Step(t.phase, e)
                case None => None
                case Some(r) => Some(Trace(r.0, t.effects + r.1))
  {
    assert (events + [e])[..|events|] == events;
  }

  /** The full record of effects of a generator that has reached phase `p`. */
  function History(p: Phase): seq<Effect>
    decreases Rank(p)
  {
    match p
    case Idle => []
    case Subscribing => [CallSubscribe]
    case Active => History(Subscribing) + [Register, Resolve]
    case Unsubscribing(_) => History(Active) + [ReleaseStream, CallUnsubscribe]
    case Closed(None) => History(Unsubscribing(None)) + [Unregister, Resolve]
    case Closed(Some(SubscribeFailed(c))) => History(Subscribing) + [Reject(SubscribeFailed(c))]
    case Closed(Some(UnsubscribeFailed(c))) => History(Unsubscribing(None)) + [Unregister, Reject(UnsubscribeFailed(c))]
    case Closed(Some(ConsumerFailed(c))) => History(Unsubscribing(None)) + [Unregister, Reject(ConsumerFailed(c))]
  }

  /** Whatever the events, the effects so far are exactly the history of the phase reached. */
  lemma {:induction false} RunFollowsHistory(events: seq<Event>)
    ensures Run(events).Some? ==> Run(events).value.effects == History(Run(events).value.phase)
    decreases |events|
  {
    if |events| > 0 {
      var init := events[..|events| - 1];
      RunFollowsHistory(init);
      assert events == init + [events[|events| - 1]];
      RunSnoc(init, events[|events| - 1]);
    }
  }

  /** The effects that settle the awaited promise. */
  predicate Settles(e: Effect)
  {
    e.Resolve? || e.Reject?
  }

  /** How often `e` occurs in `effects`. */
  function Count(effects: seq<Effect>, e: Effect): nat
  {
    if |effects| == 0 then 0
    else (if effects[0] == e then 1 else 0) + Count(effects[1..], e)
  }

  lemma {:induction false} CountAppend(a: seq<Effect>, b: seq<Effect>, e: Effect)
    ensures Count(a + b, e) == Count(a, e) + Count(b, e)
    decreases |a|
  {
    if |a| > 0 {
      assert (a + b)[1..] == a[1..] + b;
      CountAppend(a[1..], b, e);
    } else {
      assert a + b == b;
    }
  }

  /** How many times the handler is registered, net of removals. */
  function Listened(effects: seq<Effect>): int
  {
    Count(effects, Register) - Count(effects, Unregister)
  }

  /** The subscribe callback succeeded: the handler was registered at this phase or before. */
  predicate SetUp(p: Phase)
  {
    p.Active? || p.Unsubscribing? || (p.Closed? && !(p.failure.Some? && p.failure.value.SubscribeFailed?))
  }

  /** Teardown has begun: the stream was released and unsubscribe issued. */
  predicate TearingDown(p: Phase)
  {
    SetUp(p) && !p.Active?
  }

  /** Teardown has completed: the handler was removed and the generator settled. */
  predicate TornDown(p: Phase)
  {
    SetUp(p) && p.Closed?
  }

  lemma CountPair(x: Effect, y: Effect, e: Effect)
    ensures Count([x, y], e) == (if x == e then 1 else 0) + (if y == e then 1 else 0)
  {
    assert [x, y][1..] == [y];
    assert [y][1..] == [];
    assert Count([y], e) == (if y == e then 1 else 0) + Count([], e);
  }

  /** How often a connection call or the release of the stream occurs by phase `p`. */
  function Expected(p: Phase, e: Effect): nat
  {
    match e
    case CallSubscribe => if p.Idle? then 0 else 1
    case Register => if SetUp(p) then 1 else 0
    case ReleaseStream => if TearingDown(p) then 1 else 0
    case CallUnsubscribe => if TearingDown(p) then 1 else 0
    case Unregister => if TornDown(p) then 1 else 0
    case _ => 0
  }

  /** Before closing, the history holds each connection call as often as `Expected` says. */
  lemma {:induction false} HistoryCountOpen(p: Phase, e: Effect)
    requires !p.Closed? && !Settles(e)
    ensures Count(History(p), e) == Expected(p, e)
    decreases Rank(p)
  {
    match p
    case Idle =>
    case Subscribing =>
      assert [CallSubscribe][1..] == [];
    case Active =>
      HistoryCountOpen(Subscribing, e);
      CountAppend(History(Subscribing), [Register, Resolve], e);
      CountPair(Register, Resolve, e);
    case Unsubscribing(_) =>
      HistoryCountOpen(Active, e);
      CountAppend(History(Active), [ReleaseStream, CallUnsubscribe], e);
      CountPair(ReleaseStream, CallUnsubscribe, e);
  }

  /** After teardown, the history holds each connection call as often as in `Closed(None)`. */
  lemma HistoryCountTornDown(e: Effect, settle: Effect)
    requires !Settles(e) && Settles(settle)
    ensures Count(History(Unsubscribing(None)) + [Unregister, settle], e) == Expected(Closed(None), e)
  {
    HistoryCountOpen(Unsubscribing(None), e);
    CountAppend(History(Unsubscribing(None)), [Unregister, settle], e);
    CountPair(Unregister, settle, e);
  }

  /** The history of every phase holds each connection call as often as `Expected` says. */
  lemma HistoryCount(p: Phase, e: Effect)
    requires !Settles(e)
    ensures Count(History(p), e) == Expected(p, e)
  {
    match p
    case Closed(None) =>
      HistoryCountTornDown(e, Resolve);
    case Closed(Some(SubscribeFailed(c))) =>
      HistoryCountOpen(Subscribing, e);
      CountAppend(History(Subscribing), [Reject(SubscribeFailed(c))], e);
      assert [Reject(SubscribeFailed(c))][1..] == [];
    case Closed(Some(UnsubscribeFailed(c))) =>
      HistoryCountTornDown(e, Reject(UnsubscribeFailed(c)));
    case Closed(Some(ConsumerFailed(c))) =>
      HistoryCountTornDown(e, Reject(ConsumerFailed(c)));
    case _ =>
      HistoryCountOpen(p, e);
  }

  /** The handler is registered while the stream is active or unsubscribing, and only then. */
  lemma ListenedByPhase(events: seq<Event>)
    requires Run(events).Some?
    ensures Listened(Run(events).value.effects) ==
              if Run(events).value.phase.Active? || Run(events).value.phase.Unsubscribing? then 1 else 0
  {
    var p := Run(events).value.phase;
    RunFollowsHistory(events);
    HistoryCount(p, Register);
    HistoryCount(p, Unregister);
  }

  /**
   * Once closed, the handler was removed exactly as often as it was added
   * (once, unless subscribing failed), and the stream was released and
   * unsubscribe issued exactly when the handler had been registered.
   */
  lemma TeardownOnce(events: seq<Event>)
    requires Run(events).Some? && Run(events).value.phase.Closed?
    ensures var t := Run(events).value;
      && Count(t.effects, CallSubscribe) == 1
      && Count(t.effects, Register) == Count(t.effects, Unregister)
      && Count(t.effects, Register) == Count(t.effects, CallUnsubscribe)
      && Count(t.effects, Register) == Count(t.effects, ReleaseStream)
      && Count(t.effects, Register) ==
           (if t.phase.failure.Some? && t.phase.failure.value.SubscribeFailed? then 0 else 1)
  {
    var p := Run(events).value.phase;
    RunFollowsHistory(events);
    HistoryCount(p, CallSubscribe);
    HistoryCount(p, Register);
    HistoryCount(p, ReleaseStream);
    HistoryCount(p, CallUnsubscribe);
    HistoryCount(p, Unregister);
  }

  /** The handler is registered if and only if the subscribe callback reported no error. */
  lemma {:induction false} RegisteredIffSubscribed(events: seq<Event>)
    requires Run(events).Some?
    ensures Register in Run(events).value.effects <==> SubscribeDone(None) in events
    decreases |events|
  {
    if |events| > 0 {
      var init, e := events[..|events| - 1], events[|events| - 1];
      assert events == init + [e];
      RunSnoc(init, e);
      RegisteredIffSubscribed(init);
    }
  }


  /** Where registration and removal sit in the history of a phase. */
  predicate OrderedAt(s: seq<Effect>, i: nat)
    requires i < |s|
  {
    && (s[i] == Register ==> i == 1 && s[0] == CallSubscribe && i + 1 < |s| && s[i + 1] == Resolve)
    && (s[i] == Unregister ==> i == 5 && s[3] == ReleaseStream && s[4] == CallUnsubscribe
                               && i + 1 < |s| && Settles(s[i + 1]))
  }

  lemma HistoryOrderedOpen(p: Phase, i: nat)
    requires !p.Closed? && i < |History(p)|
    ensures OrderedAt(History(p), i)
  {
  }

  lemma HistoryOrdered(p: Phase, i: nat)
    requires i < |History(p)|
    ensures OrderedAt(History(p), i)
  {
    match p
    case Closed(None) =>
      assert History(p) == [CallSubscribe, Register, Resolve, ReleaseStream, CallUnsubscribe, Unregister, Resolve];
    case Closed(Some(SubscribeFailed(c))) =>
      assert History(p) == [CallSubscribe, Reject(SubscribeFailed(c))];
    case Closed(Some(UnsubscribeFailed(c))) =>
      assert History(p) == [CallSubscribe, Register, Resolve, ReleaseStream, CallUnsubscribe, Unregister,
                            Reject(UnsubscribeFailed(c))];
    case Closed(Some(ConsumerFailed(c))) =>
      assert History(p) == [CallSubscribe, Register, Resolve, ReleaseStream, CallUnsubscribe, Unregister,
                            Reject(ConsumerFailed(c))];
    case _ =>
      HistoryOrderedOpen(p, i);
  }

  /**
   * Order of effects: the handler is registered right after subscribe was
   * issued and right before setup resolves; it is removed right after the
   * stream was released and unsubscribe issued, and right before the
   * teardown's success or error is propagated.
   */
  lemma EffectOrder(events: seq<Event>, i: nat)
    requires Run(events).Some? && i < |Run(events).value.effects|
    ensures OrderedAt(Run(events).value.effects, i)
  {
    RunFollowsHistory(events);
    HistoryOrdered(Run(events).value.phase, i);
  }

  /**
   * The cause of the stop does not change the teardown: every cause releases
   * the stream and issues `unsubscribe` alike; it only decides what error is
   * left pending.
   */
  lemma TeardownIgnoresCause(p: Phase, c1: StopCause, c2: StopCause)
    ensures Step(p, Stop(c1)).Some? <==> Step(p, Stop(c2)).Some?
    ensures Step(p, Stop(c1)).Some? ==>
              && Step(p, Stop(c1)).value.1 == Step(p, Stop(c2)).value.1
              && Step(p, Stop(c1)).value.0 == Unsubscribing(Thrown(c1))
  {
  }

  /**
   * How an active generator settles after a stop and the unsubscribe callback:
   * an unsubscribe error wins; otherwise an error thrown in at the `yield` is
   * raised again; otherwise the generator completes normally.
   */
  lemma {:induction false} TeardownResult(events: seq<Event>, c: StopCause, error: Option<string>)
    requires Run(events).Some? && Run(events).value.phase == Active
    ensures Run(events + [Stop(c), UnsubscribeDone(error)]).Some?
    ensures Run(events + [Stop(c), UnsubscribeDone(error)]).value.phase ==
              Closed(if error.Some? then Some(UnsubscribeFailed(error.value))
                     else if c.ConsumerThrew? then Some(ConsumerFailed(c.error))
                     else None)
  {
    RunSnoc(events, Stop(c));
    assert events + [Stop(c), UnsubscribeDone(error)] == (events + [Stop(c)]) + [UnsubscribeDone(error)];
    RunSnoc(events + [Stop(c)], UnsubscribeDone(error));
  }
}
