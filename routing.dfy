/**
 * What the `message` handler of one subscription puts in its queue. The handler
 * is chosen once per subscription by the `receiveAllTopics` option: when it is
 * true the handler enqueues a message only if its topic matches one of the
 * subscription's filters (once, however many match); otherwise it enqueues
 * every message the connection delivers, whatever its topic.
 */
module Routing {
  import opened Wrappers
  import opened Topics
  import opened Matcher

  /** An incoming message; `P` is the payload buffer, `K` the protocol packet. */
  datatype Message<P, K> = Message(topic: string, payload: P, packet: K)

  /** The subscribe options this core reads; the others go to the connection untouched. */
  datatype SubscribeOptions = SubscribeOptions(receiveAllTopics: Option<bool>)

  /** `options?.receiveAllTopics ?? false`: an absent option or flag means false. */
  function ReceiveAllTopics(options: Option<SubscribeOptions>): (filtering: bool)
    ensures filtering <==> options.Some? && options.value.receiveAllTopics == Some(true)
  {
    match options
    case None => false
    case Some(o) =>
      match o.receiveAllTopics
      case None => false
      case Some(b) => b
  }

  /** `topics.map(topic => topic.split('/'))`: the filters as level sequences. */
  function SplitAll(topics: seq<string>): (patterns: seq<seq<string>>)
    ensures |patterns| == |topics|
  {
    seq(|topics|, i requires 0 <= i < |topics| => Split(topics[i]))
  }

  /** Filter `i` becomes the levels of topic filter `i`, which join back to it. */
  lemma SplitAllLevels(topics: seq<string>, i: nat)
    requires i < |topics|
    ensures SplitAll(topics)[i] == Split(topics[i])
    ensures |SplitAll(topics)[i]| >= 1 && Join(SplitAll(topics)[i]) == topics[i]
    ensures forall l :: l in SplitAll(topics)[i] ==> IsLevel(l)
  {
    JoinSplit(topics[i]);
    SplitGivesLevels(topics[i]);
  }

  /**
   * What `subscribe` hands the generator decides routing: a single filter
   * string matches exactly what its own split matches, and a list matches
   * what one of its members does.
   */
  lemma NormalizedFilters(arg: TopicArg, receive: seq<string>)
    ensures arg.Single? ==> (AnyMatch(SplitAll(Normalize(arg)), receive) <==> Match(Split(arg.topic), receive))
    ensures arg.Many? ==>
              (AnyMatch(SplitAll(Normalize(arg)), receive) <==>
               exists j :: 0 <= j < |arg.topics| && Match(Split(arg.topics[j]), receive))
  {
    if arg.Single? {
      assert SplitAll(Normalize(arg))[0] == Split(arg.topic);
    } else {
      if AnyMatch(SplitAll(Normalize(arg)), receive) {
        var j :| 0 <= j < |arg.topics| && Match(SplitAll(Normalize(arg))[j], receive);
        assert Match(Split(arg.topics[j]), receive);
      }
      if exists j :: 0 <= j < |arg.topics| && Match(Split(arg.topics[j]), receive) {
        var j :| 0 <= j < |arg.topics| && Match(Split(arg.topics[j]), receive);
        assert Match(SplitAll(Normalize(arg))[j], receive);
      }
    }
  }

  /** Some filter of the subscription matches the topic levels. */
  predicate AnyMatch(patterns: seq<seq<string>>, receive: seq<string>)
  {
    exists j :: 0 <= j < |patterns| && Match(patterns[j], receive)
  }

  /** What one delivery of `m` appends to the queue: nothing or `m` itself. */
  function Routed<P, K>(filtering: bool, patterns: seq<seq<string>>, m: Message<P, K>): (added: seq<Message<P, K>>)
    ensures |added| <= 1
    ensures forall x :: x in added ==> x == m
    ensures added != [] <==> !filtering || AnyMatch(patterns, Split(m.topic))
  {
    if !filtering || AnyMatch(patterns, Split(m.topic)) then [m] else []
  }

  /** What a sequence of deliveries, in order, appends to the queue. */
  function Delivered<P, K>(filtering: bool, patterns: seq<seq<string>>, ms: seq<Message<P, K>>): seq<Message<P, K>>
  {
    if |ms| == 0 then []
    else Delivered(filtering, patterns, ms[..|ms| - 1]) + Routed(filtering, patterns, ms[|ms| - 1])
  }

  /** Delivering one more message appends what that message routes. */
  lemma DeliveredSnoc<P, K>(filtering: bool, patterns: seq<seq<string>>, ms: seq<Message<P, K>>, m: Message<P, K>)
    ensures Delivered(filtering, patterns, ms + [m]) == Delivered(filtering, patterns, ms) + Routed(filtering, patterns, m)
  {
    assert (ms + [m])[..|ms|] == ms;
  }

  /** Later deliveries come after earlier ones in the queue. */
  lemma {:induction false} DeliveredAppend<P, K>(filtering: bool, patterns: seq<seq<string>>, ms1: seq<Message<P, K>>, ms2: seq<Message<P, K>>)
    ensures Delivered(filtering, patterns, ms1 + ms2) == Delivered(filtering, patterns, ms1) + Delivered(filtering, patterns, ms2)
    decreases |ms2|
  {
    if |ms2| > 0 {
      var init, last := ms2[..|ms2| - 1], ms2[|ms2| - 1];
      assert ms2 == init + [last];
      assert ms1 + ms2 == (ms1 + init) + [last];
      DeliveredSnoc(filtering, patterns, ms1 + init, last);
      DeliveredSnoc(filtering, patterns, init, last);
      DeliveredAppend(filtering, patterns, ms1, init);
    } else {
      assert ms1 + ms2 == ms1;
    }
  }

  /** Without `receiveAllTopics`, the queue receives every message, unchanged and in order. */
  lemma {:induction false} DeliveredPassAll<P, K>(patterns: seq<seq<string>>, ms: seq<Message<P, K>>)
    ensures Delivered(false, patterns, ms) == ms
    decreases |ms|
  {
    if |ms| > 0 {
      DeliveredPassAll(patterns, ms[..|ms| - 1]);
      assert ms == ms[..|ms| - 1] + [ms[|ms| - 1]];
    }
  }

  /**
   * With `receiveAllTopics`, a message is in the queue as often as it was
   * delivered if one of the filters matches its topic, and never otherwise.
   */
  lemma {:induction false} DeliveredFiltered<P, K>(patterns: seq<seq<string>>, ms: seq<Message<P, K>>, m: Message<P, K>)
    ensures multiset(Delivered(true, patterns, ms))[m] ==
              if AnyMatch(patterns, Split(m.topic)) then multiset(ms)[m] else 0
    decreases |ms|
  {
    if |ms| > 0 {
      var init, last := ms[..|ms| - 1], ms[|ms| - 1];
      DeliveredFiltered(patterns, init, m);
      assert ms == init + [last];
      assert multiset(ms) == multiset(init) + multiset{last};
      var added := Routed(true, patterns, last);
      assert added == [] || added == [last];
    }
  }

  /** Each delivery adds at most one entry. */
  lemma {:induction false} DeliveredLength<P, K>(filtering: bool, patterns: seq<seq<string>>, ms: seq<Message<P, K>>)
    ensures |Delivered(filtering, patterns, ms)| <= |ms|
    decreases |ms|
  {
    if |ms| > 0 {
      DeliveredLength(filtering, patterns, ms[..|ms| - 1]);
    }
  }

  /** A subscription to `#` with `receiveAllTopics` receives every topic, even the empty one. */
  lemma MultiLevelTopicReceivesAll<P, K>(m: Message<P, K>)
    ensures Routed(true, SplitAll(["#"]), m) == [m]
  {
    SplitLevel("#");
    assert Match(SplitAll(["#"])[0], Split(m.topic));
  }

  lemma SplitThreeLevels(a: string, b: string, c: string)
    requires IsLevel(a) && IsLevel(b) && IsLevel(c)
    ensures Split(a + "/" + b + "/" + c) == [a, b, c]
  {
    SplitLevel(c);
    SplitSeparated(b, c);
    assert a + "/" + b + "/" + c == a + [Separator] + (b + [Separator] + c);
    SplitSeparated(a, b + [Separator] + c);
  }

  /**
   * On topic strings: `a/#` does not match `a`, but it matches `a/`, whose
   * split has an empty second level.
   */
  lemma TopicParentNotMatched(a: string)
    requires IsLevel(a) && a != MultiLevel
    ensures !Match(Split(a + "/" + MultiLevel), Split(a))
    ensures Match(Split(a + "/" + MultiLevel), Split(a + "/"))
  {
    SplitLevel(a);
    SplitLevel(MultiLevel);
    assert a + "/" + MultiLevel == a + [Separator] + MultiLevel;
    SplitSeparated(a, MultiLevel);
    assert a + "/" == a + [Separator] + "";
    SplitSeparated(a, "");
    ParentNotMatched([a], [a]);
  }

  /**
   * A filter `area/+/kind` with `receiveAllTopics` takes `area/room/kind` for
   * every room (such as `sensors/room1/temp` for `sensors/+/temp`) and no topic
   * `area/room/other` whose last level differs (such as `sensors/room1/humidity`).
   */
  lemma FilteredScenario<P, K>(area: string, room: string, kind: string, other: string, payload: P, packet: K)
    requires IsLevel(area) && IsLevel(room) && IsLevel(kind) && IsLevel(other)
    requires area != MultiLevel && kind != MultiLevel && kind != SingleLevel && kind != other
    ensures Routed(true, SplitAll([area + "/" + SingleLevel + "/" + kind]),
                   Message(area + "/" + room + "/" + kind, payload, packet)) != []
    ensures Routed(true, SplitAll([area + "/" + SingleLevel + "/" + kind]),
                   Message(area + "/" + room + "/" + other, payload, packet)) == []
  {
    SplitThreeLevels(area, SingleLevel, kind);
    SplitThreeLevels(area, room, kind);
    SplitThreeLevels(area, room, other);
    var pattern := [area, SingleLevel, kind];
    assert SplitAll([area + "/" + SingleLevel + "/" + kind]) == [pattern];
    MatchWithoutMultiLevel(pattern, [area, room, kind]);
    MatchWithoutMultiLevel(pattern, [area, room, other]);
    assert Match([pattern][0], [area, room, kind]);
    assert !LevelMatches(pattern[2], [area, room, other][2]);
  }

  /**
   * Without `receiveAllTopics`, a topic that no filter matches, such as
   * `alerts/fire` for `sensors/+/temp`, is still enqueued.
   */
  lemma UnfilteredScenario<P, K>(topics: seq<string>, m: Message<P, K>)
    ensures Routed(false, SplitAll(topics), m) == [m]
  {
  }
}
