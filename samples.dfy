/**
 * The time series shared by the decoder, the range filter and the monthly
 * aggregator of app.js: a sequence of samples, each a `Date` (held here as
 * its epoch-millisecond value) paired with a rate.
 */
module Samples {

  /** One day in milliseconds: the interval of the provider's daily batch. */
  const DayMs: int := 86400000

  /** One point of the chart: `{ timestamp: new Date(ms), rate }`. */
  datatype Sample = Sample(timestamp: int, rate: real)

  /** Consecutive timestamps differ by exactly `step` milliseconds. */
  predicate Spaced(s: seq<Sample>, step: int)
  {
    forall i :: 0 < i < |s| ==> s[i].timestamp == s[i - 1].timestamp + step
  }

  /** Timestamps strictly increase along the series. */
  predicate StrictlyIncreasing(s: seq<Sample>)
  {
    forall i, j :: 0 <= i < j < |s| ==> s[i].timestamp < s[j].timestamp
  }

  /**
   * `r` is obtained from `s` by deleting elements, keeping the order of what
   * is left (greedy matching decides this exactly).
   */
  predicate IsSubsequenceOf(r: seq<Sample>, s: seq<Sample>)
    decreases |s|
  {
    if r == [] then true
    else if s == [] then false
    else if r[0] == s[0] then IsSubsequenceOf(r[1..], s[1..])
    else IsSubsequenceOf(r, s[1..])
  }

  /** In a series spaced by `step`, the sample at `k` lies `k` steps after the first. */
  lemma {:induction false} SpacedAt(s: seq<Sample>, step: int, k: nat)
    requires Spaced(s, step)
    requires k < |s|
    ensures s[k].timestamp == s[0].timestamp + k * step
  {
    if k > 0 {
      SpacedAt(s, step, k - 1);
    }
  }

  /** Along a series spaced by a positive step, a later sample has a later timestamp. */
  lemma {:induction false} SpacedLater(s: seq<Sample>, step: int, i: nat, j: nat)
    requires Spaced(s, step) && step > 0
    requires i < j < |s|
    ensures s[i].timestamp < s[j].timestamp
    decreases j - i
  {
    if j > i + 1 {
      SpacedLater(s, step, i, j - 1);
    }
  }

  /** A series spaced by a positive step is strictly increasing. */
  lemma SpacedIsIncreasing(s: seq<Sample>, step: int)
    requires Spaced(s, step) && step > 0
    ensures StrictlyIncreasing(s)
  {
    forall i, j | 0 <= i < j < |s|
      ensures s[i].timestamp < s[j].timestamp
    {
      SpacedLater(s, step, i, j);
    }
  }

  /** Every series is a subsequence of itself. */
  lemma {:induction false} SubsequenceReflexive(s: seq<Sample>)
    ensures IsSubsequenceOf(s, s)
  {
    if s != [] {
      SubsequenceReflexive(s[1..]);
    }
  }

  /** If `r` is a subsequence of `s[1..]`, it is one of `s`, whatever `s[0]` is. */
  lemma {:induction false} SkipThenMatch(r: seq<Sample>, s: seq<Sample>)
    requires s != [] && IsSubsequenceOf(r, s[1..])
    ensures IsSubsequenceOf(r, s)
    decreases |s|, 0
  {
    if r != [] && r[0] == s[0] {
      // IsSubsequenceOf(r, s[1..]) implies IsSubsequenceOf(r[1..], s[1..]).
      DropHead(r, s[1..]);
    }
  }

  /** Dropping the first element of a subsequence keeps it a subsequence. */
  lemma {:induction false} DropHead(r: seq<Sample>, s: seq<Sample>)
    requires r != [] && IsSubsequenceOf(r, s)
    ensures IsSubsequenceOf(r[1..], s)
    decreases |s|, 1
  {
    assert s != [];
    if r[0] == s[0] {
      if r[1..] != [] {
        SkipThenMatch(r[1..], s);
      }
    } else {
      DropHead(r, s[1..]);
      if r[1..] != [] {
        SkipThenMatch(r[1..], s);
      }
    }
  }
}
