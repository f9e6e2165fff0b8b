/**
 * The topic-filter matcher `match(patternArray, receiveArray)`: a filter and a
 * topic, both as sequences of levels. `+` stands for exactly one level; at `#`
 * the match succeeds, but only if the topic still has a level at that position
 * (the topic-exhausted test comes before the `#` test).
 */
module Matcher {

  const SingleLevel: string := "+"
  const MultiLevel: string := "#"

  /** The matcher, one level at a time from the front. */
  function Match(pattern: seq<string>, receive: seq<string>): bool
  {
    if |pattern| == 0 then |receive| == 0
    else if |receive| == 0 then false
    else if pattern[0] == MultiLevel then true
    else if pattern[0] != SingleLevel && pattern[0] != receive[0] then false
    else Match(pattern[1..], receive[1..])
  }

  /** The loop of the source: index `i` walks the filter, with early returns. */
  method MatchLoop(pattern: seq<string>, receive: seq<string>) returns (matched: bool)
    ensures matched == Match(pattern, receive)
  {
    var i := 0;
    while i < |pattern|
      invariant 0 <= i <= |pattern| && i <= |receive|
      invariant Match(pattern, receive) == Match(pattern[i..], receive[i..])
    {
      if i >= |receive| {
        return false;
      }
      if pattern[i] == MultiLevel {
        return true;
      }
      if pattern[i] != SingleLevel && pattern[i] != receive[i] {
        return false;
      }
      assert pattern[i..][1..] == pattern[i + 1..];
      assert receive[i..][1..] == receive[i + 1..];
      i := i + 1;
    }
    return |pattern| == |receive|;
  }

  /** One filter level accepts one topic level: `+`, or the same string. */
  predicate LevelMatches(filterLevel: string, topicLevel: string)
  {
    filterLevel == SingleLevel || filterLevel == topicLevel
  }

  /** The first `n` filter levels accept the first `n` topic levels. */
  predicate LevelsMatch(pattern: seq<string>, receive: seq<string>, n: nat)
    requires n <= |pattern| && n <= |receive|
  {
    forall i :: 0 <= i < n ==> LevelMatches(pattern[i], receive[i])
  }

  /**
   * A filter without `#` matches exactly the topics of the same length whose
   * levels it accepts one by one.
   */
  lemma {:induction false} MatchWithoutMultiLevel(pattern: seq<string>, receive: seq<string>)
    requires MultiLevel !in pattern
    ensures Match(pattern, receive) <==>
              |pattern| == |receive| && LevelsMatch(pattern, receive, |pattern|)
  {
    if |pattern| > 0 && |receive| > 0 && LevelMatches(pattern[0], receive[0]) {
      assert MultiLevel !in pattern[1..] by {
        assert forall x :: x in pattern[1..] ==> x in pattern;
      }
      MatchWithoutMultiLevel(pattern[1..], receive[1..]);
      if |pattern| == |receive| && LevelsMatch(pattern[1..], receive[1..], |pattern| - 1) {
        forall i | 0 <= i < |pattern|
          ensures LevelMatches(pattern[i], receive[i])
        {
          if i > 0 {
            assert pattern[1..][i - 1] == pattern[i];
            assert receive[1..][i - 1] == receive[i];
          }
        }
      }
      if |pattern| == |receive| && LevelsMatch(pattern, receive, |pattern|) {
        forall i | 0 <= i < |pattern| - 1
          ensures LevelMatches(pattern[1..][i], receive[1..][i])
        {
          assert LevelMatches(pattern[i + 1], receive[i + 1]);
        }
      }
    } else if |pattern| > 0 && |receive| > 0 {
      assert !LevelMatches(pattern[0], receive[0]);
    }
  }

  /**
   * A filter whose first `#` is at index `k` matches exactly the topics that
   * have more than `k` levels and whose first `k` levels it accepts.
   */
  lemma {:induction false} MatchAtMultiLevel(pattern: seq<string>, receive: seq<string>, k: nat)
    requires k < |pattern| && pattern[k] == MultiLevel && MultiLevel !in pattern[..k]
    ensures Match(pattern, receive) <==> k < |receive| && LevelsMatch(pattern, receive, k)
  {
    if k > 0 && |receive| > 0 {
      assert pattern[0] in pattern[..k];
      if LevelMatches(pattern[0], receive[0]) {
        assert pattern[1..][..k - 1] == pattern[..k][1..];
        assert MultiLevel !in pattern[1..][..k - 1] by {
          assert forall x :: x in pattern[..k][1..] ==> x in pattern[..k];
        }
        MatchAtMultiLevel(pattern[1..], receive[1..], k - 1);
        if k < |receive| && LevelsMatch(pattern[1..], receive[1..], k - 1) {
          forall i | 0 <= i < k
            ensures LevelMatches(pattern[i], receive[i])
          {
            if i > 0 {
              assert pattern[1..][i - 1] == pattern[i];
              assert receive[1..][i - 1] == receive[i];
            }
          }
        }
        if k < |receive| && LevelsMatch(pattern, receive, k) {
          forall i | 0 <= i < k - 1
            ensures LevelMatches(pattern[1..][i], receive[1..][i])
          {
            assert LevelMatches(pattern[i + 1], receive[i + 1]);
          }
        }
      } else {
        assert !LevelMatches(pattern[0], receive[0]);
      }
    }
  }

  /** The levels after the first `#` are never looked at. */
  lemma IgnoresLevelsAfterMultiLevel(prefix: seq<string>, rest1: seq<string>, rest2: seq<string>, receive: seq<string>)
    requires MultiLevel !in prefix
    ensures Match(prefix + [MultiLevel] + rest1, receive) == Match(prefix + [MultiLevel] + rest2, receive)
  {
    var p1, p2 := prefix + [MultiLevel] + rest1, prefix + [MultiLevel] + rest2;
    var k := |prefix|;
    assert p1[..k] == prefix && p2[..k] == prefix;
    MatchAtMultiLevel(p1, receive, k);
    MatchAtMultiLevel(p2, receive, k);
    if k < |receive| {
      assert LevelsMatch(p1, receive, k) == LevelsMatch(p2, receive, k) by {
        assert forall i :: 0 <= i < k ==> p1[i] == prefix[i] == p2[i];
      }
    }
  }

  /** `#` at the front matches every non-empty topic, and nothing else. */
  lemma MultiLevelFirstMatchesNonEmpty(rest: seq<string>, receive: seq<string>)
    ensures Match([MultiLevel] + rest, receive) <==> |receive| > 0
  {
  }

  /**
   * A filter ending in `#` does not match a topic that stops at or before the
   * `#` level: `a/#` does not match `a`.
   */
  lemma ParentNotMatched(prefix: seq<string>, receive: seq<string>)
    requires MultiLevel !in prefix
    requires |receive| <= |prefix|
    ensures !Match(prefix + [MultiLevel], receive)
  {
    var p := prefix + [MultiLevel];
    assert p[..|prefix|] == prefix;
    MatchAtMultiLevel(p, receive, |prefix|);
  }

  /** The empty filter matches only the empty topic. */
  lemma EmptyFilter(receive: seq<string>)
    ensures Match([], receive) <==> receive == []
  {
  }

  /** A filter without `#` never matches a topic of another length. */
  lemma LengthMismatch(pattern: seq<string>, receive: seq<string>)
    requires MultiLevel !in pattern
    requires |pattern| != |receive|
    ensures !Match(pattern, receive)
  {
    MatchWithoutMultiLevel(pattern, receive);
  }

  /** Worked cases, as the code computes them. */
  lemma Examples()
    ensures Match([], [])
    ensures !Match([], ["a"])
    ensures Match(["#"], ["a", "b", "c"])
    ensures !Match(["a", "#"], ["a"])
    ensures Match(["a", "#"], ["a", ""])
    ensures Match(["a", "+", "c"], ["a", "b", "c"])
    ensures !Match(["a", "+", "c"], ["a", "b", "c", "d"])
    ensures !Match(["a", "+"], ["a"])
    ensures Match(["+"], [""])
  {
  }
}
