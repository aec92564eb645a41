# USD/JPY chart data pipeline, modelled in Dafny

This project models the data pipeline of the exchange-rate chart page
(`app.js`). The page fetches the rate provider's batched payload and runs it
through four steps:

- **Decoding** (`processData`): reject a payload whose `batchList` is missing
  or not an array, pick the first batch whose interval is one day
  (86,400,000 ms), drop the first rate slot, subtract it from every other rate
  when it is below 1, and stamp sample `i` with `startTime + i * interval`.
- **Range filtering** (`filterDataByTimeRange`): `'3m'`, `'6m'`, `'1y'`,
  `'2y'` and `'5y'` keep the samples on or after a start date that many
  calendar months back. `'10y'` copies the whole series.
- **The summary gate** (`shouldShowMonthlyAverages`): at least two samples,
  spanning strictly more than 30 days.
- **Monthly summaries** (`calculateMonthlyAverages`): group the samples by
  `YYYY-MM` key in first-seen order, then give the mean, maximum and minimum
  rate of each month.

The page keeps two series as module-level state. `allData` is the full decoded
series and `rawData` is the series on display. Here they are the two `seq`
fields of the class `Pipeline.AppState`. Its methods `ProcessData` and
`FilterByTimeRange` reassign them as the page does.

Modules, leaf first:

- `Wrappers`: `Option` and `Result`.
- `Samples`: the `Sample` record, the one-day constant, and the predicates
  "spaced by a step", "strictly increasing" and "subsequence of".
- `Decoder`: the payload types and the pure decoding.
- `TimeRange`: the range-token `switch` and the timestamp filter.
- `Monthly`: the gate, the per-month statistics, the grouping loop and what
  it means.
- `Pipeline`: the page state and the two methods that change it.

Inputs that the page takes from its environment become parameters:

- `now: LocalDate` is the wall clock `new Date()`. It carries the fields the
  code reads from the clock: `getFullYear()`, `getMonth()` and `getDate()`.
- `localMidnight: (int, int, int) -> int` is the local-time constructor
  `new Date(y, m, d)`. It returns epoch milliseconds. Month underflow
  normalisation and the host time zone live inside it.
- `monthOf: int -> string` is the `YYYY-MM` key of a timestamp in local time.

Behaviours kept exactly as the code has them:

- An unrecognised range token throws nothing. `startDate` stays `undefined`,
  every `>=` comparison against it is false, and `rawData` becomes empty.
- The filter returns at once, leaving both series alone, when `allData` is
  empty.
- `processData` returns `rawData` after the default `'2y'` filter has
  reassigned it. It therefore returns the filtered series, not the full
  decode.
- `find` returns the first daily batch in list order, and that is the batch
  decoded.
- A daily batch with no rates decodes to an empty series. `rates[0]` is
  `undefined` there, and `undefined < 1` is false, so the offset is 0.

## Model

| member | source | states |
|---|---|---|
| `Samples.SpacedAt` | app.js:55-58 | in a series built by adding a fixed interval, sample `k` lies `k` intervals after the first |
| `Samples.SpacedIsIncreasing` | app.js:55-58 | a series spaced by a positive interval has strictly increasing timestamps |
| `Decoder.DailyIndex` | app.js:42 | the batch found is daily and every earlier batch is not; nothing is found exactly when no batch is daily |
| `Decoder.MapRates` | app.js:55-61 | the mapped series has one sample per rate, with sample `j` stamped `startTime + (index + j) * interval` and rate `rates[index + j] - offset` |
| `Decoder.DecodeBatch` | app.js:48-61 | the first rate slot is dropped (length `|rates| - 1`, or 0 for no rates), sample `i` is stamped `startTime + i * interval`, and its rate is `rates[i + 1] - rates[0]` when `rates[0] < 1` and `rates[i + 1]` otherwise (the offset `Decoder.Offset` of app.js:52, 0 when there are no rates) |
| `Decoder.Decode` | app.js:36-61 | fails with 'Invalid data format' exactly when `batchList` is missing or not an array, fails with 'Daily interval data not found' exactly when it is an array with no daily batch, and otherwise yields a series one day apart and strictly increasing |
| `Decoder.DailySeries` | app.js:48-58 | a daily batch decodes to samples exactly one day apart, so in strictly increasing time order |
| `Decoder.DecodeUsesFirstDailyBatch` | app.js:42-46 | a daily batch preceded only by non-daily batches is the one decoded |
| `Decoder.DecodedLength` | app.js:52-53 | a decoded daily batch has one sample fewer than it has rates |
| `TimeRange.WindowOf` | app.js:249-270 | `'10y'` means all data, any token outside the six gives no start date, and each other token starts on the same day of the month, 3, 6, 12, 24 or 60 calendar months before now |
| `TimeRange.KeepFrom` | app.js:272 | the result keeps exactly the samples at or after the start, each as many times as it occurs in the input, in their original order (a subsequence), and is never longer than its input |
| `TimeRange.RangeFilter` | app.js:245-273 | the result is always a subsequence of the full series: the full series itself for `'10y'`, empty for an unknown token, and otherwise exactly the samples at or after the token's start date, each with its multiplicity in the full series |
| `TimeRange.KeepFromIdempotent` | app.js:272 | filtering a filtered series again from the same start changes nothing |
| `TimeRange.RangeFilterIdempotent` | app.js:245-273 | re-filtering with the same token and the same `now` changes nothing |
| `TimeRange.KeepFromIsSuffix` | app.js:272 | on a series in time order, the filter removes only a prefix: the result is a contiguous suffix |
| `TimeRange.RangeFilterKeepsDailySuffix` | app.js:245-273 | on a daily series every token yields a suffix that is still one day apart |
| `Monthly.ShouldShowMonthlyAverages` | app.js:105-113 | false below two samples; otherwise true exactly when the last timestamp is more than 30 days after the first |
| `Monthly.GateOnDailySeries` | app.js:105-113 | on a series one day apart, the gate opens exactly when it holds at least 32 samples |
| `Monthly.Max` | app.js:91 | the maximum is one of the month's rates and no rate exceeds it |
| `Monthly.Min` | app.js:92 | the minimum is one of the month's rates and no rate is below it |
| `Monthly.SumBetween` | app.js:90 | a sum of `n` rates that lie within [lo, hi] lies within [n * lo, n * hi] |
| `Monthly.MeanBetween` | app.js:90-92 | a month's average lies between its minimum and its maximum |
| `Monthly.Summarize` | app.js:88-100 | the summary keeps the month key, its average is the month's sum divided by its count (`Monthly.Sum` is the `reduce` of app.js:90, a left fold from 0, and `Monthly.Mean` the division after it), its min and max are rates of that month bounding all of them, and min <= average <= max |
| `Monthly.Record` | app.js:76-85 | one `forEach` step keeps the groups well formed, appends a new key at the end of the key order and leaves the order alone for a known key, and appends the rate to that key's group only |
| `Monthly.Grouping` | app.js:73-86 | the month groups are well formed: keys listed once, one non-empty group per listed key, and no groups exactly for an empty series |
| `Monthly.GroupingStep` | app.js:75-86 | visiting sample `i` is one `Record` step on the groups of the samples before it |
| `Monthly.Summaries` | app.js:88-100 | one summary per group, in key order, each with min <= average <= max |
| `Monthly.MonthlySummaries` | app.js:72-102 | empty input gives no summaries (and only empty input), the month keys are distinct, and each summary has min <= average <= max |
| `Monthly.CalculateMonthlyAverages` | app.js:72-102 | the one-pass loop that fills the month dictionary and its key order returns exactly `MonthlySummaries` |
| `Monthly.GroupsAreMonths` | app.js:75-86 | the groups are exactly the months present in the series, and each holds that month's rates in series order |
| `Monthly.OrderIsFirstSeen` | app.js:78-86 | the groups are listed by increasing position of the first sample of their month |
| `Monthly.GroupSizesSum` | app.js:75-86 | the group sizes add up to the number of samples |
| `Monthly.SummaryForEveryMonth` | app.js:72-102 | every month present in the series has a summary |
| `Monthly.SummaryForGroup` | app.js:88-100 | every month group gets a summary carrying its key |
| `Monthly.SummariesInFirstSeenOrder` | app.js:88-102 | every summary is for a month present in the series, and summaries come in order of each month's first occurrence |
| `Monthly.SummariesOfMonthRates` | app.js:85-100 | each summary is the summary of exactly the rates of its month's samples |
| `Pipeline.AppState.constructor` | app.js:2-3 | the page starts with both series empty, so the series on display is a subsequence of the full series |
| `Pipeline.AppState.FilterByTimeRange` | app.js:245-273 | `allData` never changes; with an empty `allData` nothing changes; otherwise `rawData` becomes `RangeFilter` of `allData`; the series on display stays a subsequence of the full series |
| `Pipeline.AppState.ProcessData` | app.js:36-70 | on a decode error it returns that error and leaves both series unchanged; otherwise `allData` is the full decode, `rawData` is its `'2y'` filter, and the return value is that `rawData`; the series on display stays a subsequence of the full series |
| `Pipeline.DefaultViewIsRecentDailySuffix` | app.js:63-69 | after a successful load the displayed series is a suffix of the full series, one day apart, and the monthly table is shown exactly when it holds at least 32 samples |

## Left out

- `fetchExchangeRates` (app.js:5-34) is left out: network `fetch`, `async`, and sniffing `window.location`.
- `createChart`, `displayMonthlyAverages`, `init`, `updateChart` and the `DOMContentLoaded` listeners (app.js:115-243, 275-300) are left out. They are Chart.js and DOM work and only call the modelled functions.
- server.js and api/exchange-rates.js are left out. They are an HTTP relay with no data logic.
- `toFixed(4)` formatting (app.js:96-98) is left out. Summaries hold unformatted numbers.
- IEEE floating point is left out. Rates are exact reals, so rounding in `reduce`, `NaN` and infinities are not modelled.
- Local-time calendar arithmetic is not modelled: the `YYYY-MM` key, month underflow in `new Date(y, m - 3, d)`, and the time zone. These are the parameters `monthOf` and `localMidnight`, and the wall clock is the parameter `now`.
- JavaScript's dynamic typing is left out. Batches are typed records, so a batch with a missing `rates` or `startTime`, non-numeric rates, and `Date` values outside the valid range are not modelled.
- Aliasing of the arrays is left out. `[...allData]` copies are sequence values, so the model has no shared mutation to track.
