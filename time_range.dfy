/**
 * The pure part of `filterDataByTimeRange` in app.js: the `switch` that turns
 * a range token into a start date, and the `filter` that keeps the samples
 * on or after it.
 *
 * The wall clock `new Date()` is the parameter `now`, given by the local
 * calendar fields the code reads from it, and the local-time constructor
 * `new Date(year, month, day)` (with its month/year normalisation and time
 * zone) is the parameter `localMidnight`, which yields epoch milliseconds.
 */
module TimeRange {
  import opened Samples

  /** Local calendar fields: `getFullYear()`, `getMonth()` (0-based), `getDate()`. */
  datatype LocalDate = LocalDate(year: int, month: int, day: int)

  /** What the `switch` leaves behind for the filter. */
  datatype Window =
    | Since(start: LocalDate)  // startDate = new Date(start.year, start.month, start.day)
    | AllData                  // '10y': copy everything
    | NoStartDate              // unknown token: startDate stays undefined

  /** The six tokens the range selector offers. */
  const Tokens: set<string> := {"3m", "6m", "1y", "2y", "5y", "10y"}

  /** Months counted from year 0, so that calendar lookbacks are differences. */
  function MonthNumber(d: LocalDate): int
  {
    d.year * 12 + d.month
  }

  /** How many calendar months each lookback token reaches back. */
  function LookbackMonths(range: string): nat
  {
    match range
    case "3m" => 3
    case "6m" => 6
    case "1y" => 12
    case "2y" => 24
    case "5y" => 60
    case _ => 0
  }

  /**
   * The `switch (range)` of `filterDataByTimeRange`: every lookback token
   * starts the window the same day-of-month, that many calendar months
   * before `now`.
   */
  function WindowOf(range: string, now: LocalDate): (w: Window)
    ensures w == AllData <==> range == "10y"
    ensures w == NoStartDate <==> range !in Tokens
    ensures w.Since? ==> w.start.day == now.day
    ensures w.Since? ==> MonthNumber(now) - MonthNumber(w.start) == LookbackMonths(range) > 0
  {
    match range
    case "3m" => Since(LocalDate(now.year, now.month - 3, now.day))
    case "6m" => Since(LocalDate(now.year, now.month - 6, now.day))
    case "1y" => Since(LocalDate(now.year - 1, now.month, now.day))
    case "2y" => Since(LocalDate(now.year - 2, now.month, now.day))
    case "5y" => Since(LocalDate(now.year - 5, now.month, now.day))
    case "10y" => AllData
    case _ => NoStartDate
  }

  /** `series.filter(item => item.timestamp >= start)`. */
  function KeepFrom(s: seq<Sample>, start: int): (r: seq<Sample>)
    ensures IsSubsequenceOf(r, s)
    ensures forall x :: x in r <==> x in s && x.timestamp >= start
    ensures forall x :: multiset(r)[x] == if x.timestamp >= start then multiset(s)[x] else 0
    ensures |r| <= |s|
  {
    if s == [] then []
    else
      var rest := KeepFrom(s[1..], start);
      KeepStepCounts(s, start, rest);
      if s[0].timestamp >= start then [s[0]] + rest
      else
        SkipThenMatch(rest, s);
        rest
  }

  /** One step of the filter: the head is counted once if kept, never if dropped. */
  lemma KeepStepCounts(s: seq<Sample>, start: int, rest: seq<Sample>)
    requires s != []
    requires forall x :: multiset(rest)[x] == if x.timestamp >= start then multiset(s[1..])[x] else 0
    ensures forall x :: multiset(if s[0].timestamp >= start then [s[0]] + rest else rest)[x]
                     == if x.timestamp >= start then multiset(s)[x] else 0
  {
    assert s == [s[0]] + s[1..];
    assert multiset(s) == multiset{s[0]} + multiset(s[1..]);
  }

  /**
   * The series `filterDataByTimeRange(range)` computes from a non-empty full
   * series. `item.timestamp >= undefined` is false for every item, so an
   * unknown token keeps nothing.
   */
  function RangeFilter(all: seq<Sample>, range: string, now: LocalDate, localMidnight: (int, int, int) -> int): (r: seq<Sample>)
    ensures IsSubsequenceOf(r, all)
    ensures range == "10y" ==> r == all
    ensures range !in Tokens ==> r == []
    ensures WindowOf(range, now).Since? ==>
              var d := WindowOf(range, now).start;
              && (forall x :: x in r <==> x in all && x.timestamp >= localMidnight(d.year, d.month, d.day))
              && (forall x :: multiset(r)[x] ==
                    if x.timestamp >= localMidnight(d.year, d.month, d.day) then multiset(all)[x] else 0)
  {
    match WindowOf(range, now)
    case AllData =>
      SubsequenceReflexive(all);
      all
    case NoStartDate => []
    case Since(d) => KeepFrom(all, localMidnight(d.year, d.month, d.day))
  }

  /** Filtering twice from the same start keeps the same samples as filtering once. */
  lemma {:induction false} KeepFromIdempotent(s: seq<Sample>, start: int)
    ensures KeepFrom(KeepFrom(s, start), start) == KeepFrom(s, start)
  {
    if s != [] {
      KeepFromIdempotent(s[1..], start);
    }
  }

  /**
   * Re-filtering a filtered series with the same token and the same `now`
   * changes nothing.
   */
  lemma RangeFilterIdempotent(all: seq<Sample>, range: string, now: LocalDate, localMidnight: (int, int, int) -> int)
    ensures RangeFilter(RangeFilter(all, range, now, localMidnight), range, now, localMidnight)
         == RangeFilter(all, range, now, localMidnight)
  {
    match WindowOf(range, now)
    case AllData =>
    case NoStartDate =>
    case Since(d) => KeepFromIdempotent(all, localMidnight(d.year, d.month, d.day));
  }

  /**
   * On a series in time order the samples on or after the start form a
   * contiguous suffix: the filter only cuts off a prefix.
   */
  lemma {:induction false} KeepFromIsSuffix(s: seq<Sample>, start: int)
    requires StrictlyIncreasing(s)
    ensures KeepFrom(s, start) == s[|s| - |KeepFrom(s, start)|..]
  {
    if s != [] {
      KeepFromIsSuffix(s[1..], start);
      if s[0].timestamp >= start {
        // Every later sample is later still, so none of them is dropped.
        KeepAllFrom(s[1..], start);
      }
    }
  }

  /** When every sample is on or after the start, the filter keeps them all. */
  lemma {:induction false} KeepAllFrom(s: seq<Sample>, start: int)
    requires forall i :: 0 <= i < |s| ==> s[i].timestamp >= start
    ensures KeepFrom(s, start) == s
  {
    if s != [] {
      KeepAllFrom(s[1..], start);
    }
  }

  /** A suffix of a series spaced by `step` is spaced by `step`. */
  lemma SuffixSpaced(s: seq<Sample>, step: int, k: nat)
    requires Spaced(s, step) && k <= |s|
    ensures Spaced(s[k..], step)
  {
    forall i | 0 < i < |s[k..]|
      ensures s[k..][i].timestamp == s[k..][i - 1].timestamp + step
    {
      assert s[k..][i] == s[k + i] && s[k..][i - 1] == s[k + i - 1];
    }
  }

  /**
   * Applied to a series one day apart, every range token yields a suffix of
   * it that is still one day apart.
   */
  lemma RangeFilterKeepsDailySuffix(all: seq<Sample>, range: string, now: LocalDate, localMidnight: (int, int, int) -> int)
    requires Spaced(all, DayMs)
    ensures var r := RangeFilter(all, range, now, localMidnight);
            r == all[|all| - |r|..] && Spaced(r, DayMs)
  {
    var r := RangeFilter(all, range, now, localMidnight);
    SpacedIsIncreasing(all, DayMs);
    match WindowOf(range, now)
    case AllData =>
      assert all[0..] == all;
    case NoStartDate =>
    case Since(d) =>
      KeepFromIsSuffix(all, localMidnight(d.year, d.month, d.day));
    SuffixSpaced(all, DayMs, |all| - |r|);
  }
}
