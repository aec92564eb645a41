/**
 * `shouldShowMonthlyAverages` and `calculateMonthlyAverages` of app.js: the
 * gate that decides whether a series spans enough time to summarise, and
 * the grouping of samples by month into average/max/min summaries.
 *
 * The month key `YYYY-MM` is read from a `Date` in local time; here it is
 * the parameter `monthOf`, from epoch milliseconds to the key.
 */
module Monthly {
  import opened Samples

  // ---------------------------------------------------------------------
  // The gate
  // ---------------------------------------------------------------------

  /**
   * `shouldShowMonthlyAverages`: at least two samples, and strictly more than
   * thirty days of elapsed time between the first and the last one.
   */
  function ShouldShowMonthlyAverages(data: seq<Sample>): (show: bool)
    ensures |data| < 2 ==> !show
    ensures |data| >= 2 ==> (show <==> data[|data| - 1].timestamp - data[0].timestamp > 30 * DayMs)
  {
    if |data| < 2 then false
    else
      var daysDiff := (data[|data| - 1].timestamp - data[0].timestamp) as real / (1000 * 60 * 60 * 24) as real;
      daysDiff > 30.0
  }

  /**
   * On a series with one sample per day, the gate opens exactly when the
   * series holds at least 32 samples.
   */
  lemma GateOnDailySeries(s: seq<Sample>)
    requires Spaced(s, DayMs)
    ensures ShouldShowMonthlyAverages(s) <==> |s| >= 32
  {
    if |s| >= 2 {
      SpacedAt(s, DayMs, |s| - 1);
    }
  }

  // ---------------------------------------------------------------------
  // Per-month statistics: the `reduce`, `Math.max` and `Math.min` of a month
  // ---------------------------------------------------------------------

  /** `rates.reduce((sum, rate) => sum + rate, 0)`, folding from the left. */
  function Sum(rates: seq<real>): real
  {
    if rates == [] then 0.0 else Sum(rates[..|rates| - 1]) + rates[|rates| - 1]
  }

  /** The arithmetic mean: the sum divided by `rates.length`. */
  function Mean(rates: seq<real>): real
    requires |rates| > 0
  {
    Sum(rates) / |rates| as real
  }

  /** `Math.max(...rates)`: a member of the rates that no rate exceeds. */
  function Max(rates: seq<real>): (m: real)
    requires |rates| > 0
    ensures m in rates
    ensures forall i :: 0 <= i < |rates| ==> rates[i] <= m
  {
    if |rates| == 1 then rates[0]
    else
      var m := Max(rates[..|rates| - 1]);
      if rates[|rates| - 1] > m then rates[|rates| - 1] else m
  }

  /** `Math.min(...rates)`: a member of the rates that no rate undercuts. */
  function Min(rates: seq<real>): (m: real)
    requires |rates| > 0
    ensures m in rates
    ensures forall i :: 0 <= i < |rates| ==> m <= rates[i]
  {
    if |rates| == 1 then rates[0]
    else
      var m := Min(rates[..|rates| - 1]);
      if rates[|rates| - 1] < m then rates[|rates| - 1] else m
  }

  /** A sum of values within [lo, hi] lies within [n * lo, n * hi]. */
  lemma {:induction false} SumBetween(rates: seq<real>, lo: real, hi: real)
    requires forall i :: 0 <= i < |rates| ==> lo <= rates[i] <= hi
    ensures |rates| as real * lo <= Sum(rates) <= |rates| as real * hi
  {
    if rates != [] {
      var init := rates[..|rates| - 1];
      SumBetween(init, lo, hi);
      assert |rates| as real * lo == |init| as real * lo + lo;
      assert |rates| as real * hi == |init| as real * hi + hi;
    }
  }

  /** The average of a month lies between its minimum and its maximum. */
  lemma MeanBetween(rates: seq<real>)
    requires |rates| > 0
    ensures Min(rates) <= Mean(rates) <= Max(rates)
  {
    var lo, hi := Min(rates), Max(rates);
    SumBetween(rates, lo, hi);
    MeanWithin(rates, lo, hi);
  }

  /** A mean lies within any bounds that, scaled by the count, bound the sum. */
  lemma MeanWithin(rates: seq<real>, lo: real, hi: real)
    requires |rates| > 0
    requires |rates| as real * lo <= Sum(rates) <= |rates| as real * hi
    ensures lo <= Mean(rates) <= hi
  {
    QuotientBetween(Sum(rates), |rates| as real, lo, hi);
  }

  /** Dividing by a positive count preserves bounds scaled by that count. */
  lemma QuotientBetween(s: real, n: real, lo: real, hi: real)
    requires n > 0.0 && n * lo <= s <= n * hi
    ensures lo <= s / n <= hi
  {
  }

  /** The summary of one month, before `toFixed(4)` turns it into text. */
  datatype MonthlySummary = MonthlySummary(month: string, average: real, max: real, min: real)

  /** The `{ month, average, max, min }` record of one month's rates. */
  function Summarize(month: string, rates: seq<real>): (m: MonthlySummary)
    requires |rates| > 0
    ensures m.month == month
    ensures m.min in rates && m.max in rates
    ensures forall i :: 0 <= i < |rates| ==> m.min <= rates[i] <= m.max
    ensures m.average == Sum(rates) / (|rates| as real)
    ensures m.min <= m.average <= m.max
  {
    MeanBetween(rates);
    MonthlySummary(month, Mean(rates), Max(rates), Min(rates))
  }

  // ---------------------------------------------------------------------
  // Grouping by month: the `monthlyData` object and its key order
  // ---------------------------------------------------------------------

  /**
   * The `monthlyData` object: its keys in insertion order (the order
   * `Object.values` lists them in, since `YYYY-MM` is never an array index)
   * and the rates pushed under each key.
   */
  datatype Groups = Groups(order: seq<string>, rates: map<string, seq<real>>)

  /** Every listed key has a group and vice versa, keys are listed once, no group is empty. */
  ghost predicate WellFormed(g: Groups)
  {
    && (forall k :: k in g.rates <==> k in g.order)
    && (forall i, j :: 0 <= i < j < |g.order| ==> g.order[i] != g.order[j])
    && (forall k :: k in g.rates ==> |g.rates[k]| > 0)
  }

  /**
   * One step of the `forEach`: create the month's group on first sight,
   * then push the rate onto it.
   */
  function Record(g: Groups, key: string, rate: real): (r: Groups)
    requires WellFormed(g)
    ensures WellFormed(r)
    ensures r.order == if key in g.rates then g.order else g.order + [key]
    ensures r.rates.Keys == g.rates.Keys + {key}
    ensures r.rates[key] == (if key in g.rates then g.rates[key] else []) + [rate]
    ensures forall k :: k in g.rates && k != key ==> r.rates[k] == g.rates[k]
  {
    var created := if key in g.rates then g else Groups(g.order + [key], g.rates[key := []]);
    Groups(created.order, created.rates[key := created.rates[key] + [rate]])
  }

  /** The `monthlyData` object once the `forEach` has visited every sample of `data`. */
  function Grouping(data: seq<Sample>, monthOf: int -> string): (g: Groups)
    ensures WellFormed(g)
    ensures |g.order| == 0 <==> |data| == 0
  {
    if data == [] then Groups([], map[])
    else
      var x := data[|data| - 1];
      Record(Grouping(data[..|data| - 1], monthOf), monthOf(x.timestamp), x.rate)
  }

  /** `Object.values(monthlyData).map(...)`: one summary per group, in key order. */
  function Summaries(g: Groups): (r: seq<MonthlySummary>)
    requires WellFormed(g)
    ensures |r| == |g.order|
    ensures forall i :: 0 <= i < |r| ==> r[i].month == g.order[i] && r[i].min <= r[i].average <= r[i].max
  {
    seq(|g.order|, i requires 0 <= i < |g.order| => Summarize(g.order[i], g.rates[g.order[i]]))
  }

  /** What `calculateMonthlyAverages(data)` returns, before formatting. */
  function MonthlySummaries(data: seq<Sample>, monthOf: int -> string): (r: seq<MonthlySummary>)
    ensures |r| == 0 <==> |data| == 0
    ensures forall i, j :: 0 <= i < j < |r| ==> r[i].month != r[j].month
    ensures forall i :: 0 <= i < |r| ==> r[i].min <= r[i].average <= r[i].max
  {
    Summaries(Grouping(data, monthOf))
  }

  /**
   * `calculateMonthlyAverages`: fills the month groups in one pass over the
   * samples, then summarises each group.
   */
  method CalculateMonthlyAverages(data: seq<Sample>, monthOf: int -> string) returns (r: seq<MonthlySummary>)
    ensures r == MonthlySummaries(data, monthOf)
  {
    var order: seq<string> := [];
    var monthlyData: map<string, seq<real>> := map[];
    var i := 0;
    while i < |data|
      invariant 0 <= i <= |data|
      invariant Groups(order, monthlyData) == Grouping(data[..i], monthOf)
    {
      ghost var before := Groups(order, monthlyData);
      var item := data[i];
      var yearMonth := monthOf(item.timestamp);
      if yearMonth !in monthlyData {
        monthlyData := monthlyData[yearMonth := []];
        order := order + [yearMonth];
      }
      monthlyData := monthlyData[yearMonth := monthlyData[yearMonth] + [item.rate]];
      assert Groups(order, monthlyData) == Record(before, yearMonth, item.rate);
      GroupingStep(data, i, monthOf);
      i := i + 1;
    }
    assert data[..|data|] == data;
    r := Summaries(Groups(order, monthlyData));
  }

  /** Visiting sample `i` extends the groups of the first `i` samples by one `Record` step. */
  lemma GroupingStep(data: seq<Sample>, i: nat, monthOf: int -> string)
    requires i < |data|
    ensures Grouping(data[..i + 1], monthOf)
         == Record(Grouping(data[..i], monthOf), monthOf(data[i].timestamp), data[i].rate)
  {
    assert data[..i + 1][..i] == data[..i];
  }

  // ---------------------------------------------------------------------
  // Reference definitions and what the grouping means
  // ---------------------------------------------------------------------

  /** The month key of every sample, in series order. */
  function KeysOf(data: seq<Sample>, monthOf: int -> string): (ks: seq<string>)
    ensures |ks| == |data|
  {
    seq(|data|, i requires 0 <= i < |data| => monthOf(data[i].timestamp))
  }

  /** The rates of the samples whose month is `key`, in series order. */
  function RatesOf(data: seq<Sample>, monthOf: int -> string, key: string): seq<real>
  {
    if data == [] then []
    else (if monthOf(data[0].timestamp) == key then [data[0].rate] else []) + RatesOf(data[1..], monthOf, key)
  }

  /** The position of the first occurrence of `k` in `ks`. */
  function FirstIndex(ks: seq<string>, k: string): (p: nat)
    requires k in ks
    ensures p < |ks| && ks[p] == k
    ensures forall q :: 0 <= q < p ==> ks[q] != k
  {
    if ks[0] == k then 0 else 1 + FirstIndex(ks[1..], k)
  }

  /** Appending a sample extends the rates of its own month and of no other. */
  lemma {:induction false} RatesOfSnoc(data: seq<Sample>, x: Sample, monthOf: int -> string, key: string)
    ensures RatesOf(data + [x], monthOf, key)
         == RatesOf(data, monthOf, key) + (if monthOf(x.timestamp) == key then [x.rate] else [])
  {
    if data != [] {
      assert (data + [x])[1..] == data[1..] + [x];
      RatesOfSnoc(data[1..], x, monthOf, key);
    }
  }

  /** A key that is already present keeps its first position when more keys follow. */
  lemma {:induction false} FirstIndexSnoc(ks: seq<string>, x: string, k: string)
    requires k in ks
    ensures FirstIndex(ks + [x], k) == FirstIndex(ks, k)
  {
    if ks[0] != k {
      assert (ks + [x])[1..] == ks[1..] + [x];
      FirstIndexSnoc(ks[1..], x, k);
    }
  }

  /** Appending a sample appends its month key. */
  lemma KeysOfSnoc(data: seq<Sample>, x: Sample, monthOf: int -> string)
    ensures KeysOf(data + [x], monthOf) == KeysOf(data, monthOf) + [monthOf(x.timestamp)]
  {
  }

  /**
   * The groups are exactly the months present in the series, and each holds
   * the rates of that month's samples in series order.
   */
  lemma {:induction false} GroupsAreMonths(data: seq<Sample>, monthOf: int -> string)
    ensures forall k :: k in Grouping(data, monthOf).rates <==> k in KeysOf(data, monthOf)
    ensures forall k :: k in Grouping(data, monthOf).rates ==>
              Grouping(data, monthOf).rates[k] == RatesOf(data, monthOf, k)
  {
    if data != [] {
      var init, x := data[..|data| - 1], data[|data| - 1];
      assert data == init + [x];
      GroupsAreMonths(init, monthOf);
      KeysOfSnoc(init, x, monthOf);
      forall k | k in Grouping(data, monthOf).rates
        ensures Grouping(data, monthOf).rates[k] == RatesOf(data, monthOf, k)
      {
        RatesOfSnoc(init, x, monthOf, k);
        if k !in Grouping(init, monthOf).rates {
          NoRatesOutsideKeys(init, monthOf, k);
        }
      }
    }
  }

  /** A month that no sample has collects no rates. */
  lemma {:induction false} NoRatesOutsideKeys(data: seq<Sample>, monthOf: int -> string, key: string)
    requires key !in KeysOf(data, monthOf)
    ensures RatesOf(data, monthOf, key) == []
  {
    if data != [] {
      assert KeysOf(data, monthOf)[0] == monthOf(data[0].timestamp);
      assert KeysOf(data[1..], monthOf) == KeysOf(data, monthOf)[1..];
      NoRatesOutsideKeys(data[1..], monthOf, key);
    }
  }

  /**
   * Every key of `order` occurs in `ks`, and the keys are listed by
   * increasing position of their first occurrence in `ks`.
   */
  ghost predicate FirstSeenOrder(order: seq<string>, ks: seq<string>)
  {
    && (forall i :: 0 <= i < |order| ==> order[i] in ks)
    && (forall i, j :: 0 <= i < j < |order| ==> FirstIndex(ks, order[i]) < FirstIndex(ks, order[j]))
  }

  /** The groups are listed in the order in which their months first appear in the series. */
  lemma {:induction false} OrderIsFirstSeen(data: seq<Sample>, monthOf: int -> string)
    ensures FirstSeenOrder(Grouping(data, monthOf).order, KeysOf(data, monthOf))
  {
    if data != [] {
      var init, x := data[..|data| - 1], data[|data| - 1];
      assert data == init + [x];
      OrderIsFirstSeen(init, monthOf);
      GroupsAreMonths(init, monthOf);
      KeysOfSnoc(init, x, monthOf);
      RecordKeepsFirstSeen(Grouping(init, monthOf), KeysOf(init, monthOf), monthOf(x.timestamp), x.rate);
    }
  }

  /**
   * One `Record` step keeps the groups in first-seen order: a known month
   * keeps its place, a new month goes last and was seen last.
   */
  lemma RecordKeepsFirstSeen(g: Groups, ks: seq<string>, key: string, rate: real)
    requires WellFormed(g)
    requires forall k :: k in g.rates <==> k in ks
    requires FirstSeenOrder(g.order, ks)
    ensures FirstSeenOrder(Record(g, key, rate).order, ks + [key])
  {
    if key in g.rates {
      assert Record(g, key, rate).order == g.order;
      FirstSeenSnoc(g.order, ks, key);
    } else {
      assert Record(g, key, rate).order == g.order + [key];
      FirstSeenAppendNew(g.order, ks, key);
    }
  }

  /** Later occurrences do not move first occurrences. */
  lemma FirstSeenSnoc(order: seq<string>, ks: seq<string>, key: string)
    requires FirstSeenOrder(order, ks)
    ensures FirstSeenOrder(order, ks + [key])
  {
    forall i | 0 <= i < |order|
      ensures FirstIndex(ks + [key], order[i]) == FirstIndex(ks, order[i])
    {
      FirstIndexSnoc(ks, key, order[i]);
    }
  }

  /** A key seen for the first time at the end is first seen after every listed key. */
  lemma FirstSeenAppendNew(order: seq<string>, ks: seq<string>, key: string)
    requires FirstSeenOrder(order, ks)
    requires key !in ks
    ensures FirstSeenOrder(order + [key], ks + [key])
  {
    FirstSeenSnoc(order, ks, key);
    assert FirstIndex(ks + [key], key) == |ks|;
  }

  /** The sizes of the groups listed in `order`. */
  function TotalSize(order: seq<string>, rates: map<string, seq<real>>): nat
  {
    if order == [] then 0
    else
      var last := order[|order| - 1];
      TotalSize(order[..|order| - 1], rates) + if last in rates then |rates[last]| else 0
  }

  /** Only the sizes of the listed groups count towards the total. */
  lemma {:induction false} TotalSizeFrame(order: seq<string>, m1: map<string, seq<real>>, m2: map<string, seq<real>>)
    requires forall k :: k in order ==> (k in m1 <==> k in m2) && (k in m1 ==> |m1[k]| == |m2[k]|)
    ensures TotalSize(order, m1) == TotalSize(order, m2)
  {
    if order != [] {
      TotalSizeFrame(order[..|order| - 1], m1, m2);
    }
  }

  /** Pushing one rate onto a group listed once raises the total by one. */
  lemma {:induction false} TotalSizePush(order: seq<string>, m: map<string, seq<real>>, key: string, rate: real)
    requires forall i, j :: 0 <= i < j < |order| ==> order[i] != order[j]
    requires key in order && key in m
    ensures TotalSize(order, m[key := m[key] + [rate]]) == TotalSize(order, m) + 1
  {
    var init, last := order[..|order| - 1], order[|order| - 1];
    if last == key {
      assert key !in init;
      TotalSizeFrame(init, m[key := m[key] + [rate]], m);
    } else {
      TotalSizePush(init, m, key, rate);
    }
  }

  /** The group sizes add up to the number of samples: every sample lands in exactly one group. */
  lemma {:induction false} GroupSizesSum(data: seq<Sample>, monthOf: int -> string)
    ensures TotalSize(Grouping(data, monthOf).order, Grouping(data, monthOf).rates) == |data|
  {
    if data != [] {
      var init, x := data[..|data| - 1], data[|data| - 1];
      GroupSizesSum(init, monthOf);
      RecordAddsOne(Grouping(init, monthOf), monthOf(x.timestamp), x.rate);
    }
  }

  /** One `Record` step adds exactly one rate to the groups. */
  lemma RecordAddsOne(g: Groups, key: string, rate: real)
    requires WellFormed(g)
    ensures TotalSize(Record(g, key, rate).order, Record(g, key, rate).rates) == TotalSize(g.order, g.rates) + 1
  {
    if key in g.rates {
      TotalSizePush(g.order, g.rates, key, rate);
    } else {
      RecordNewKey(g, key, rate);
    }
  }

  /** A month seen for the first time adds a group of one rate at the end. */
  lemma RecordNewKey(g: Groups, key: string, rate: real)
    requires WellFormed(g) && key !in g.rates
    ensures TotalSize(Record(g, key, rate).order, Record(g, key, rate).rates) == TotalSize(g.order, g.rates) + 1
  {
    assert [] + [rate] == [rate];
    assert Record(g, key, rate) == Groups(g.order + [key], g.rates[key := [rate]]);
    NewGroupAddsOne(g.order, g.rates, key, rate);
  }

  /** Listing a new key with a one-rate group raises the total by one. */
  lemma NewGroupAddsOne(order: seq<string>, m: map<string, seq<real>>, key: string, rate: real)
    requires key !in order
    ensures TotalSize(order + [key], m[key := [rate]]) == TotalSize(order, m) + 1
  {
    assert (order + [key])[..|order|] == order;
    TotalSizeFrame(order, m[key := [rate]], m);
  }

  /** Every month present in the series has a summary. */
  lemma SummaryForEveryMonth(data: seq<Sample>, monthOf: int -> string)
    ensures var r, ks := MonthlySummaries(data, monthOf), KeysOf(data, monthOf);
            forall k :: k in ks ==> exists i :: 0 <= i < |r| && r[i].month == k
  {
    var g, ks := Grouping(data, monthOf), KeysOf(data, monthOf);
    assert Summaries(g) == MonthlySummaries(data, monthOf);
    GroupsAreMonths(data, monthOf);
    forall k | k in ks
      ensures exists i :: 0 <= i < |Summaries(g)| && Summaries(g)[i].month == k
    {
      SummaryForGroup(g, k);
    }
  }

  /** Every group has a summary. */
  lemma SummaryForGroup(g: Groups, k: string)
    requires WellFormed(g) && k in g.rates
    ensures exists i :: 0 <= i < |Summaries(g)| && Summaries(g)[i].month == k
  {
    var i :| 0 <= i < |g.order| && g.order[i] == k;
    assert Summaries(g)[i].month == k;
  }

  /**
   * Every summary is for a month present in the series, and the summaries
   * come in the order in which their months first appear.
   */
  lemma SummariesInFirstSeenOrder(data: seq<Sample>, monthOf: int -> string)
    ensures var r, ks := MonthlySummaries(data, monthOf), KeysOf(data, monthOf);
            && (forall i :: 0 <= i < |r| ==> r[i].month in ks)
            && (forall i, j :: 0 <= i < j < |r| ==> FirstIndex(ks, r[i].month) < FirstIndex(ks, r[j].month))
  {
    OrderIsFirstSeen(data, monthOf);
  }

  /** Each summary summarises exactly the rates of its month's samples, in series order. */
  lemma SummariesOfMonthRates(data: seq<Sample>, monthOf: int -> string)
    ensures var r := MonthlySummaries(data, monthOf);
            forall i :: 0 <= i < |r| ==>
              |RatesOf(data, monthOf, r[i].month)| > 0 &&
              r[i] == Summarize(r[i].month, RatesOf(data, monthOf, r[i].month))
  {
    var g := Grouping(data, monthOf);
    var r := Summaries(g);
    GroupsAreMonths(data, monthOf);
    forall i | 0 <= i < |r|
      ensures |RatesOf(data, monthOf, r[i].month)| > 0
      ensures r[i] == Summarize(r[i].month, RatesOf(data, monthOf, r[i].month))
    {
      assert r[i] == Summarize(g.order[i], g.rates[g.order[i]]);
    }
  }
}
