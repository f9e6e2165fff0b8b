/**
 * Topic strings and their levels: the `split('/')` that turns a topic or a topic
 * filter into its sequence of levels, and the normalisation of the `topic`
 * argument of `subscribe` (a single string or a list of strings).
 */
module Topics {

  const Separator: char := '/'

  /** Number of separators in `s`. */
  function Separators(s: string): nat
  {
    if |s| == 0 then 0
    else (if s[0] == Separator then 1 else 0) + Separators(s[1..])
  }

  /**
   * JavaScript's `s.split('/')`: the levels of a topic, in order. Empty levels
   * are kept, and the empty string has one (empty) level.
   */
  function Split(s: string): (levels: seq<string>)
    ensures |levels| == Separators(s) + 1
  {
    if |s| == 0 then [""]
    else
      var rest := Split(s[1..]);
      if s[0] == Separator then [""] + rest
      else [[s[0]] + rest[0]] + rest[1..]
  }

  /** JavaScript's `levels.join('/')`, the inverse of `Split`. */
  function Join(levels: seq<string>): string
  {
    if |levels| == 0 then ""
    else if |levels| == 1 then levels[0]
    else levels[0] + [Separator] + Join(levels[1..])
  }

  /** A level never contains the separator. */
  predicate IsLevel(l: string)
  {
    Separator !in l
  }

  lemma {:induction false} SplitGivesLevels(s: string)
    ensures forall i :: 0 <= i < |Split(s)| ==> IsLevel(Split(s)[i])
  {
    if |s| > 0 {
      SplitGivesLevels(s[1..]);
    }
  }

  lemma JoinCons(x: string, rest: seq<string>)
    ensures Join([x] + rest) == if rest == [] then x else x + [Separator] + Join(rest)
  {
    assert ([x] + rest)[1..] == rest;
  }

  lemma JoinPrepend(c: char, h: string, tail: seq<string>)
    ensures Join([[c] + h] + tail) == [c] + Join([h] + tail)
  {
    JoinCons([c] + h, tail);
    JoinCons(h, tail);
    if tail != [] {
      assert ([c] + h) + [Separator] + Join(tail) == [c] + (h + [Separator] + Join(tail));
    }
  }

  /** Joining the levels of a topic gives the topic back. */
  lemma {:induction false} JoinSplit(s: string)
    ensures Join(Split(s)) == s
  {
    if |s| > 0 {
      var rest := Split(s[1..]);
      JoinSplit(s[1..]);
      if s[0] == Separator {
        JoinCons("", rest);
        assert s == [s[0]] + s[1..];
      } else {
        JoinPrepend(s[0], rest[0], rest[1..]);
        assert rest == [rest[0]] + rest[1..];
        assert s == [s[0]] + s[1..];
      }
    }
  }

  /** Splitting a string with a separator-free head keeps the head in the first level. */
  lemma {:induction false} SplitPrefix(a: string, t: string)
    requires IsLevel(a)
    ensures Split(a + t) == [a + Split(t)[0]] + Split(t)[1..]
  {
    if |a| > 0 {
      SplitPrefix(a[1..], t);
      assert (a + t)[1..] == a[1..] + t;
      assert (a + t)[0] == a[0];
      assert [a[0]] + (a[1..] + Split(t)[0]) == a + Split(t)[0];
    } else {
      var r := Split(t);
      assert a + t == t;
      assert a + r[0] == r[0];
      assert r == [r[0]] + r[1..];
    }
  }

  /** A string without separators is a single level. */
  lemma SplitLevel(l: string)
    requires IsLevel(l)
    ensures Split(l) == [l]
  {
    SplitPrefix(l, "");
    assert l + "" == l;
  }

  /** A separator after a separator-free head ends the first level. */
  lemma SplitSeparated(head: string, tail: string)
    requires IsLevel(head)
    ensures Split(head + [Separator] + tail) == [head] + Split(tail)
  {
    var t := [Separator] + tail;
    assert head + [Separator] + tail == head + t;
    SplitPrefix(head, t);
    assert t[1..] == tail;
    assert head + "" == head;
  }

  /** Splitting the join of one or more levels gives the levels back. */
  lemma {:induction false} SplitJoin(levels: seq<string>)
    requires |levels| >= 1
    requires forall i :: 0 <= i < |levels| ==> IsLevel(levels[i])
    ensures Split(Join(levels)) == levels
  {
    if |levels| == 1 {
      SplitPrefix(levels[0], "");
      assert levels[0] + "" == levels[0];
    } else {
      SplitJoin(levels[1..]);
      var t := [Separator] + Join(levels[1..]);
      assert levels[0] + [Separator] + Join(levels[1..]) == levels[0] + t;
      SplitPrefix(levels[0], t);
      assert t[1..] == Join(levels[1..]);
      assert Split(t) == [""] + levels[1..];
      assert levels[0] + "" == levels[0];
      assert levels == [levels[0]] + levels[1..];
    }
  }

  /** The `topic` argument of `subscribe`: one filter string or a list of them. */
  datatype TopicArg = Single(topic: string) | Many(topics: seq<string>)

  /** `subscribe` turns a single string into a one-element list and passes a list through. */
  function Normalize(arg: TopicArg): (topics: seq<string>)
    ensures arg.Single? ==> |topics| == 1 && topics[0] == arg.topic
    ensures arg.Many? ==> topics == arg.topics
  {
    match arg
    case Single(t) => [t]
    case Many(ts) => ts
  }
}
