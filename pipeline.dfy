/**
 * The module-level state of app.js, `rawData` (the series on display) and
 * `allData` (the full decoded series kept for re-filtering), with the two
 * functions that reassign it: `processData` and `filterDataByTimeRange`.
 */
module Pipeline {
  import opened Wrappers
  import opened Samples
  import opened Decoder
  import opened TimeRange
  import Monthly

  class AppState {
    /** The series handed to the chart and to the monthly summary. */
    var rawData: seq<Sample>
    /** The full decoded series, kept for re-filtering. */
    var allData: seq<Sample>

    /** The series on display is always drawn, in order, from the full series. */
    ghost predicate Valid()
      reads this
    {
      IsSubsequenceOf(rawData, allData)
    }

    /** Page load: `let rawData = []; let allData = [];`. */
    constructor ()
      ensures Valid()
      ensures rawData == [] && allData == []
    {
      rawData := [];
      allData := [];
    }

    /**
     * `filterDataByTimeRange(range)`. With no full series it returns at
     * once; otherwise `rawData` becomes the filtered full series, and
     * `allData` is never touched.
     */
    method FilterByTimeRange(range: string, now: LocalDate, localMidnight: (int, int, int) -> int)
      requires Valid()
      modifies this
      ensures Valid()
      ensures allData == old(allData)
      ensures old(allData) == [] ==> rawData == old(rawData)
      ensures old(allData) != [] ==> rawData == RangeFilter(allData, range, now, localMidnight)
    {
      if |allData| == 0 {
        return;
      }
      match WindowOf(range, now)
      case AllData =>
        rawData := allData;
        SubsequenceReflexive(rawData);
      case NoStartDate =>
        // `item.timestamp >= undefined` is false for every item.
        rawData := [];
      case Since(d) =>
        var startDate := localMidnight(d.year, d.month, d.day);
        rawData := KeepFrom(allData, startDate);
    }

    /**
     * `processData(data)`: on a well-formed payload, stores the decoded
     * series in `allData`, applies the default '2y' filter and returns the
     * filtered `rawData`; on a malformed one, throws before touching state.
     */
    method ProcessData(data: Payload, now: LocalDate, localMidnight: (int, int, int) -> int)
      returns (r: Result<seq<Sample>, DecodeError>)
      requires Valid()
      modifies this
      ensures Valid()
      ensures Decode(data).Failure? ==>
                r == Failure(Decode(data).error) && rawData == old(rawData) && allData == old(allData)
      ensures Decode(data).Success? ==>
                && allData == Decode(data).value
                && rawData == RangeFilter(allData, "2y", now, localMidnight)
                && r == Success(rawData)
    {
      if !data.batchList.BatchArray? {
        return Failure(InvalidDataFormat);
      }
      var found := DailyIndex(data.batchList.batches);
      if found.None? {
        return Failure(DailyIntervalDataNotFound);
      }
      var dailyBatch := data.batchList.batches[found.value];
      rawData := DecodeBatch(dailyBatch);
      allData := rawData;
      SubsequenceReflexive(rawData);
      FilterByTimeRange("2y", now, localMidnight);
      r := Success(rawData);
    }
  }

  /**
   * What the page shows after a successful load: the last samples of the
   * full series, still one day apart, and the monthly table appears exactly
   * when at least 32 of them are left.
   */
  lemma DefaultViewIsRecentDailySuffix(data: Payload, now: LocalDate, localMidnight: (int, int, int) -> int)
    requires Decode(data).Success?
    ensures var all := Decode(data).value;
            var view := RangeFilter(all, "2y", now, localMidnight);
            && view == all[|all| - |view|..]
            && Spaced(view, DayMs)
            && (Monthly.ShouldShowMonthlyAverages(view) <==> |view| >= 32)
  {
    var all := Decode(data).value;
    RangeFilterKeepsDailySuffix(all, "2y", now, localMidnight);
    Monthly.GateOnDailySeries(RangeFilter(all, "2y", now, localMidnight));
  }
}
