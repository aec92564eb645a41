/**
 * The decoding half of `processData` in app.js: validate the payload's
 * `batchList`, pick the daily batch, strip the leading offset slot and
 * rebuild one timestamp per remaining rate.
 */
module Decoder {
  import opened Wrappers
  import opened Samples

  /** One batch of the provider payload: `{ interval, startTime, rates }`. */
  datatype Batch = Batch(interval: int, startTime: int, rates: seq<real>)

  /**
   * The payload's `batchList` field as JavaScript sees it: missing (or any
   * other falsy value), present but not an array, or an array of batches.
   */
  datatype BatchListField = Absent | NotAnArray | BatchArray(batches: seq<Batch>)

  /** The parsed JSON body handed to `processData`. */
  datatype Payload = Payload(batchList: BatchListField)

  /** The two errors `processData` throws, by their messages. */
  datatype DecodeError =
    | InvalidDataFormat          // 'Invalid data format'
    | DailyIntervalDataNotFound  // 'Daily interval data not found'

  /** No batch of the list has the one-day interval. */
  predicate NoDailyBatch(batches: seq<Batch>)
  {
    forall j :: 0 <= j < |batches| ==> batches[j].interval != DayMs
  }

  /**
   * `batchList.find(batch => batch.interval === 86400000)`, as the index of
   * the batch found: the first daily batch in list order, if any.
   */
  function DailyIndex(batches: seq<Batch>): (r: Option<nat>)
    ensures r.None? <==> NoDailyBatch(batches)
    ensures r.Some? ==> r.value < |batches| && batches[r.value].interval == DayMs
    ensures r.Some? ==> forall j :: 0 <= j < r.value ==> batches[j].interval != DayMs
  {
    if batches == [] then None
    else if batches[0].interval == DayMs then Some(0)
    else
      match DailyIndex(batches[1..])
      case None => None
      case Some(i) => Some(i + 1)
  }

  /** The offset hidden in the first rate slot: `rates[0] < 1 ? rates[0] : 0`. */
  function Offset(rates: seq<real>): real
  {
    // On an empty array rates[0] is undefined and `undefined < 1` is false.
    if |rates| > 0 && rates[0] < 1.0 then rates[0] else 0.0
  }

  /**
   * `rates.map((rate, index) => ...)` from position `index` on: one sample
   * per rate, stamped `startTime + index * interval`, with the offset removed.
   */
  function MapRates(rates: seq<real>, startTime: int, interval: int, offset: real, index: nat): (r: seq<Sample>)
    requires index <= |rates|
    ensures |r| == |rates| - index
    ensures forall j :: 0 <= j < |r| ==> r[j].timestamp == startTime + (index + j) * interval
    ensures forall j :: 0 <= j < |r| ==> r[j].rate == rates[index + j] - offset
    decreases |rates| - index
  {
    if index == |rates| then []
    else [Sample(startTime + index * interval, rates[index] - offset)] + MapRates(rates, startTime, interval, offset, index + 1)
  }

  /**
   * The series a batch decodes to: the first rate slot is dropped; when it
   * is below 1 it is an offset subtracted from every other rate.
   */
  function DecodeBatch(b: Batch): (r: seq<Sample>)
    ensures |r| == if |b.rates| == 0 then 0 else |b.rates| - 1
    ensures forall i :: 0 <= i < |r| ==> r[i].timestamp == b.startTime + i * b.interval
    ensures |b.rates| > 0 && b.rates[0] < 1.0 ==>
              forall i :: 0 <= i < |r| ==> r[i].rate == b.rates[i + 1] - b.rates[0]
    ensures !(|b.rates| > 0 && b.rates[0] < 1.0) ==>
              forall i :: 0 <= i < |r| ==> r[i].rate == b.rates[i + 1]
  {
    var offset := Offset(b.rates);
    var rest := if |b.rates| == 0 then [] else b.rates[1..];
    MapRates(rest, b.startTime, b.interval, offset, 0)
  }

  /** The series `processData` decodes from a payload, or the error it throws. */
  function Decode(data: Payload): (r: Result<seq<Sample>, DecodeError>)
    ensures r == Failure(InvalidDataFormat) <==> !data.batchList.BatchArray?
    ensures r == Failure(DailyIntervalDataNotFound) <==>
              data.batchList.BatchArray? && NoDailyBatch(data.batchList.batches)
    ensures r.Success? ==> Spaced(r.value, DayMs) && StrictlyIncreasing(r.value)
  {
    match data.batchList
    case Absent => Failure(InvalidDataFormat)
    case NotAnArray => Failure(InvalidDataFormat)
    case BatchArray(batches) =>
      match DailyIndex(batches)
      case None => Failure(DailyIntervalDataNotFound)
      case Some(i) =>
        var s := DecodeBatch(batches[i]);
        DailySeries(batches[i]);
        Success(s)
  }

  /** The daily batch decodes to a series one day apart, hence strictly increasing. */
  lemma DailySeries(b: Batch)
    requires b.interval == DayMs
    ensures Spaced(DecodeBatch(b), DayMs)
    ensures StrictlyIncreasing(DecodeBatch(b))
  {
    var s := DecodeBatch(b);
    forall i | 0 < i < |s|
      ensures s[i].timestamp == s[i - 1].timestamp + DayMs
    {
      assert s[i].timestamp == b.startTime + (i - 1) * DayMs + DayMs;
    }
    SpacedIsIncreasing(s, DayMs);
  }

  /**
   * The batch `processData` decodes is the first daily batch of the list:
   * any daily batch preceded only by non-daily ones is the one decoded.
   */
  lemma {:induction false} DecodeUsesFirstDailyBatch(data: Payload, i: nat)
    requires data.batchList.BatchArray?
    requires i < |data.batchList.batches|
    requires data.batchList.batches[i].interval == DayMs
    requires forall j :: 0 <= j < i ==> data.batchList.batches[j].interval != DayMs
    ensures Decode(data) == Success(DecodeBatch(data.batchList.batches[i]))
  {
  }

  /** A decoded series has one sample per rate after the first slot. */
  lemma DecodedLength(data: Payload, i: nat)
    requires data.batchList.BatchArray?
    requires i < |data.batchList.batches|
    requires data.batchList.batches[i].interval == DayMs
    requires forall j :: 0 <= j < i ==> data.batchList.batches[j].interval != DayMs
    requires |data.batchList.batches[i].rates| >= 1
    ensures Decode(data).Success?
    ensures |Decode(data).value| == |data.batchList.batches[i].rates| - 1
  {
    DecodeUsesFirstDailyBatch(data, i);
  }
}
