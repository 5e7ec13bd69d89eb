# Earnings Insight: statement normalisation pipeline

A Dafny model of the part of earnings-insight-app that turns a company's
income statement, balance sheet, cash flow statement, share count and
dividend history into the normalised per-period record that the charts
display, together with the helpers that print its numbers.

The model follows the repository's modules:

- `DataProcessor` (`src/data/data_processor.py`) is the current pipeline.
  It is all-or-nothing. The four statement rows come from the fetcher's
  tables. The share-count history is forward-filled onto the revenue
  dates. `pd.DataFrame` aligns everything on the union of the income and
  cash-flow dates. EPS, operating margin, operating cash flow per share and
  BPS are then computed row by row; BPS uses stockholder equity, falls back
  to assets minus liabilities, and fails when neither is available. The
  table is sorted by date into the normalised dict. Last, the dividends
  are bucketed by quarter or year end and forward-filled into `dps`.
  `ProcessFinancialData` returns a model exactly when every input is
  there. That model satisfies `Describes`: its dates are the union of the
  statement dates in ascending order, and every field holds, position by
  position, the value that the statements, the share history and the
  dividends determine for that position's date.
- `FinancialData` (`src/models/financial_data.py`) is the older revision.
  It rejects empty statements and broadcasts one scalar share count. It
  computes BPS from assets minus liabilities only, and its frame has no
  margin or cash-flow-per-share column.
- `FinancialUtils` (`src/utils/financial_utils.py`) applies the same
  dividend step to the older frame. The model proves that
  `get_normalized_financial_data` returns `None` for every ticker. The
  older frame lacks the `営業利益率` column, so the dict literal raises,
  and the handler turns that into `None`.
- `Formatting` (`src/utils/formatting.py` and its copy at
  `src/utils/financial_utils.py:7-22`) holds the tiered yen amounts,
  the `YYYY/MM` labels and the percentages. Python's `:.Nf` is modelled
  as round-half-to-even of the exact value to a decimal, and a reader
  proves that each printed string determines the decimal it shows.
- `Models` (`src/utils/models.py`) holds `FinancialDataModel`, its dict
  round trips, and `ChartConfig`.
- `Frames`, `Dates` and `Resampling` hold the pandas operations the
  pipeline uses, each specified by what it computes:
  - label lookup with `.loc`;
  - alignment by `pd.DataFrame`;
  - `reindex(method="ffill")`;
  - `sort_index`;
  - elementwise arithmetic, with NaN as `Undefined`;
  - `resample("QE"/"YE").sum()`.
- `Constants` holds the literals of `src/utils/constants.py`.

The code, not its tests, decides the behaviour. The test at
`src/tests/test_data_processor.py:122` expects the first normalised
revenue to be the 2023-12-31 value, but `_normalize_data` sorts in
ascending order. `Normalization.NormalizeData` therefore states that the
first position holds the earliest date's row.

## Model

| member | source | states |
|---|---|---|
| DataProcessor.ProcessFinancialData | src/data/data_processor.py:25-102 | returns a model exactly when all three statements, the share count, the four required rows, a monotonic share history and a book-value source are present; that model has the union of statement dates in ascending order, and each field holds the statements' value, the share count padded as pandas pads (FfillAt), or the same-date metric for its date |
| DataProcessor.MissingItems | src/data/data_processor.py:53-57 | an item is reported missing exactly when its row label is absent from its statement |
| DataProcessor.SharesFollow | src/data/data_processor.py:59-67 | the reindexed share series holds FfillAt of the history on each revenue date (the latest history date on or before it for an increasing history, the earliest on or after it for a decreasing one), and Undefined off the revenue dates |
| DataProcessor.StatementData | src/data/data_processor.py:46-67 | the data dict has five uniquely named, well-formed entries: the four statement rows and the reindexed share count |
| DataProcessor.AddPerShareMetrics | src/data/data_processor.py:73-75 | adding the three metric columns keeps the frame well-formed on the same index; what each column holds is stated by AddPerShareMetricsFollows |
| DataProcessor.MetricsFrame | src/data/data_processor.py:70-90 | the frame with BPS added is well-formed; what it holds is stated by MetricsFrameDescribes |
| DataProcessor.SharesOn | src/data/data_processor.py:66 | reference definition: FfillAt of the history on a revenue date, Undefined on any other date of the frame |
| DataProcessor.ValueOn | src/data/data_processor.py:46-90 | reference definition of each field on a date: the statement row, the padded share count, or the quotient, percentage or book value per share of that same date's values |
| DataProcessor.BookValue | src/data/data_processor.py:77-90 | net worth on each date is stockholder equity when that row exists, otherwise total assets minus total liabilities |
| DataProcessor.StatementIndex | src/data/data_processor.py:70 | the frame's dates are exactly the dates of the income or cash flow statement |
| DataProcessor.AddPerShareMetricsFollows | src/data/data_processor.py:72-75 | EPS, operating margin and cash flow per share in each row depend only on that row's net income, operating income, revenue, cash flow and share count |
| DataProcessor.AddBookValueFollows | src/data/data_processor.py:77-90 | the BPS column holds the date's net worth divided by the date's share count, and no other column changes |
| DataProcessor.MetricsFrameDescribes | src/data/data_processor.py:46-90 | every one of the nine columns of the finished frame holds, in each row, the value determined for that row's date |
| DataProcessor.NormalizedDates | src/data/data_processor.py:113-117 | the normalised dates are ascending, are all real dates, and are exactly the statement dates |
| DataProcessor.NormalizedFields | src/data/data_processor.py:116-131 | after sorting, each field keeps each date's value at that date's position |
| DataProcessor.WithDividends | src/data/data_processor.py:144-166 | the dict is unchanged unless there are dividends and dates; otherwise only dps is added, with one bucketed dividend per date |
| DataProcessor.ProcessDividends | src/data/data_processor.py:135-170 | the caller's dict becomes WithDividends of its old contents |
| DataProcessor.PipelineDescribes | src/data/data_processor.py:92-98 | a frame whose columns follow the inputs, once normalised, given dividends and wrapped in a model, gives a model satisfying Describes |
| Normalization.ToNormalizedDict | src/data/data_processor.py:120-131 | the dict exists exactly when the frame has all nine columns; it holds the ten base keys, the frame's dates and each field's column |
| Normalization.NormalizeData | src/data/data_processor.py:104-133 | the dates are the frame's dates in ascending order, and each field's i-th value is the frame's value on the i-th date |
| Normalization.NormalizedTracks | src/utils/financial_utils.py:59-70 | a column that follows its dates in the frame does so in the dict |
| Normalization.KeyOf | src/data/data_processor.py:121-130 | every field has its own base key, and MetricOf maps the key back to it |
| Normalization.ColumnOf | src/data/data_processor.py:122-130 | every field is read from one of the nine frame columns |
| FinancialData.GetFinancialData | src/models/financial_data.py:19-84 | returns a frame exactly when no statement is empty, the share count is truthy and the four required rows and both net-worth rows exist; the frame has the union of statement dates, seven columns that follow their inputs, and no margin or cash-flow-per-share column |
| FinancialData.SelectStatements | src/models/financial_data.py:29-31 | the three selected tables are well-formed; which three is stated by OnlyAnnualIsAnnual |
| FinancialData.OnlyAnnualIsAnnual | src/models/financial_data.py:29-31 | "annual" selects the annual income statement, balance sheet and cash flow; every other period string selects the three quarterly ones |
| FinancialData.Broadcast | src/models/financial_data.py:50 | the share series has the revenue dates and the same count on each |
| FinancialData.LegacyData | src/models/financial_data.py:38-56 | the data dict has five uniquely named, well-formed entries: the four statement rows and the broadcast count |
| FinancialData.LegacyFrameOf | src/models/financial_data.py:65-78 | the frame with EPS and BPS added is well-formed; what it holds is stated by LegacyFrameOfDescribes |
| FinancialData.NetWorth | src/models/financial_data.py:71-75 | net worth on each date is total assets minus total liabilities |
| FinancialData.LegacyEpsStep | src/models/financial_data.py:68 | EPS in each row is that row's net income over the broadcast count |
| FinancialData.LegacyBpsStep | src/models/financial_data.py:71-75 | BPS in each row is that date's net worth over the broadcast count |
| FinancialData.LegacyLacksMetrics | src/models/financial_data.py:65-80 | the frame never gets an operating-margin or cash-flow-per-share column |
| FinancialData.LegacyFrameOfDescribes | src/models/financial_data.py:65-80 | the built frame has the union of the statement dates, and each of its seven columns follows its inputs |
| FinancialData.GetDividends | src/models/financial_data.py:86-99 | None exactly for an absent or empty dividend series, the series unchanged otherwise |
| FinancialUtils.NormalizeFrameData | src/utils/financial_utils.py:36-80 | no frame gives None; otherwise the dict exists exactly when the frame has all nine columns, and it is the frame's dict in the frame's own date order, with dps added only when there are dividends and dates |
| FinancialUtils.LegacyIndexValid | src/utils/financial_utils.py:42 | the older frame's dates are all real calendar dates |
| FinancialUtils.GetNormalizedFinancialData | src/utils/financial_utils.py:25-80 | the result is None for every ticker and period |
| Formatting.TierOf | src/utils/formatting.py:15-22 | exactly one tier: B when the absolute value is at least 1e9, M from 1e6, K from 1e3, plain below, with each threshold included |
| Formatting.FormatFinancialValue | src/utils/formatting.py:7-22 | the text starts with "¥", and a minus follows exactly when the value is negative |
| Formatting.FinancialValueReadsBack | src/utils/formatting.py:15-22 | the printed amount reads back as its tier, given by the suffix, and the value divided by that tier's scale and rounded to 1 place for B/M/K or 2 places for plain amounts |
| Formatting.FinancialValueIsNear | src/utils/formatting.py:15-22 | the amount shown, scaled back up, is within half a unit of the last printed place of the value |
| Formatting.TieredTextReadsBack | src/utils/financial_utils.py:15-22 | "¥", a decimal's text and a tier suffix read back as that tier and decimal |
| Formatting.RoundHalfEven | src/utils/formatting.py:22 | the nearest integer, and the even one on a tie |
| Formatting.RoundIsNearest | src/utils/formatting.py:43 | the rounded decimal is within half a unit of its last place of the value |
| Formatting.TextReadsBack | src/utils/formatting.py:43 | every decimal's text reads back as that decimal, so different decimals print differently |
| Formatting.UnsignedReadsBack | src/utils/formatting.py:43 | the digits and point of q units of the p-th place read back as q and p |
| Formatting.NatDigitsValue | src/utils/formatting.py:43 | the integer part's digits denote the integer |
| Formatting.FormatPercentage | src/utils/formatting.py:34-43 | the text ends in one '%' and has no other |
| Formatting.PercentageReadsBack | src/utils/formatting.py:43 | the text before the '%' reads back as the value rounded half to even at the given places |
| Formatting.FormatDate | src/utils/formatting.py:32 | the label is the year's digits, a '/', and two month digits |
| Formatting.DateReadsBack | src/utils/formatting.py:32 | a label reads back as its date's year and month |
| Formatting.SameLabelSameMonth | src/utils/formatting.py:32 | two dates get the same label exactly when they share year and month |
| Formatting.FormatDates | src/utils/formatting.py:24-32 | one label per date in the same order, the i-th naming the i-th date's year and month |
| Models.FromDict | src/utils/models.py:21-37 | each base field is the dict's entry or the empty list when absent; dps is set exactly when the key is present |
| Models.ToDict | src/utils/models.py:39-61 | the ten base keys always, dps exactly when it is set, each holding its field |
| Models.FromDictToDict | src/utils/models.py:27-61 | rebuilding a model from its dict gives the same model |
| Models.ToDictFromDict | src/utils/models.py:27-61 | a dict with exactly the base keys, possibly plus dps, survives the round trip |
| Models.UnknownKeysIgnored | src/utils/models.py:27-37 | keys outside the base keys and dps do not affect the model |
| Models.NewChartConfig | src/utils/models.py:72-93 | every argument is stored unchanged |
| Models.ChartConfigDefaults | src/utils/models.py:77-78 | the second axis's title and data default to None |
| Resampling.FrequencyFor | src/data/data_processor.py:154-157 | quarter ends exactly for "quarterly", year ends for every other period |
| Resampling.Resample | src/data/data_processor.py:155-157 | one total per label, labels strictly ascending, and no buckets exactly when there are no events |
| Resampling.ResampleIsBuckets | src/data/data_processor.py:155-157 | a non-empty list resamples to the buckets from its first event's period to its last event's |
| Resampling.ResampleBuckets | src/data/data_processor.py:155-157 | with lo and hi the earliest and latest period of any event, there is one bucket per period from lo to hi with no gap, the i-th labelled by the last day of period lo + i and holding that period's total |
| Resampling.Buckets | src/data/data_processor.py:155-157 | n buckets with ascending labels, the i-th labelled by the last day of period lo + i and holding that period's total |
| Resampling.PeriodOf | src/data/data_processor.py:155-157 | reference definition of the bucket a date falls in: its calendar quarter for "QE", its year for "YE" |
| Resampling.DividendOn | src/data/data_processor.py:160 | reference definition of the filled dividend on a date: the total of the latest bucket ended by then, Undefined before the first bucket ends or with no events |
| Resampling.ResampleConservesTotal | src/data/data_processor.py:155-157 | the bucket totals add up to the total of the dividends |
| Resampling.EventInItsBucket | src/data/data_processor.py:155-157 | each event falls in the bucket labelled by the first period end on or after its date |
| Resampling.ResampleFfill | src/data/data_processor.py:155-160 | forward-filling the buckets onto a date gives the total of the latest bucket that has ended by then, and Undefined before the first |
| Resampling.BucketedDividends | src/data/data_processor.py:153-160 | one value per statement date, that date's forward-filled bucket total |
| Resampling.EndedBy | src/data/data_processor.py:160 | a bucket has ended by a date exactly when its number is at most the last bucket ended by then |
| Resampling.PeriodBounds | src/data/data_processor.py:155-157 | a date lies after the previous bucket's end and no later than its own bucket's end |
| Resampling.QuarterlyScenario | src/data/data_processor.py:154-160 | dividends of 0.20 in January and February and 0.25 in April give 0.40 on 2023-03-31 and 0.25 on 2023-06-30 |
| Frames.ReindexFfill | src/data/data_processor.py:66 | reindexing succeeds exactly when the source dates are strictly increasing or strictly decreasing, and gives FfillAt on each target date |
| Frames.FfillAt | src/data/data_processor.py:66 | reference definition of pandas' pad: from the latest date on or before the target on an increasing index, the earliest date on or after it on a decreasing one |
| Frames.FfillNeverLooksAhead | src/data/data_processor.py:66 | on an increasing index a filled value comes from the latest source date not after the target; with no such date it is Undefined |
| Frames.FfillDescendingLooksAhead | src/data/data_processor.py:66 | on a decreasing index of two or more dates a filled value comes from the earliest source date not before the target; with no such date it is Undefined |
| Frames.DescendingPadScenario | src/data/data_processor.py:66 | a history of 200 on 2023-06-30 and 100 on 2023-03-31, listed newest first, fills 2023-05-15 with 200, 2023-01-01 with 100 and 2023-07-15 with nothing |
| Frames.DataFrame | src/data/data_processor.py:70 | the index is the union of the Series' dates, and each column is its Series aligned on it |
| Frames.IndexUnion | src/data/data_processor.py:70 | the index holds each date of any of the Series, once |
| Frames.SubSeries | src/data/data_processor.py:87 | on every date the difference of the two Series as aligned, Undefined where either has no value |
| Frames.DivByColumn | src/data/data_processor.py:80 | one value per row: the Series' value on the row's date divided by the column's value in that row |
| Frames.Align | src/data/data_processor.py:70 | each position holds the Series' value on that date, Undefined where it has none |
| Frames.Loc | src/data/data_processor.py:47-50 | a row is found exactly when its label is present, and it carries the statement's dates |
| Frames.Div | src/data/data_processor.py:73 | the quotient is defined exactly when both operands are and the divisor is non-zero |
| Frames.DivInverse | src/data/data_processor.py:73 | a defined quotient times the divisor is the dividend |
| Frames.Percent | src/data/data_processor.py:74 | part / whole * 100 is defined exactly when both are and whole is non-zero, with no clamping |
| Frames.PercentInverse | src/data/data_processor.py:74 | a defined percentage times the whole is a hundred times the part |
| Frames.Sub | src/data/data_processor.py:87 | the difference is defined exactly when both are, and adding back the subtrahend gives the minuend |
| Frames.WithColumn | src/data/data_processor.py:73-75 | the new column holds the values and every other column is unchanged |
| Frames.SortIndex | src/data/data_processor.py:116 | rows are reordered by ascending date, and each row keeps its values |
| Frames.SortIndexFollows | src/data/data_processor.py:116 | sorting keeps every column attached to its own date |
| Dates.LatestAtOrBefore | src/data/data_processor.py:66 | the position of a latest date not after the target, None exactly when every date is after it |
| Dates.EarliestAtOrAfter | src/data/data_processor.py:66 | the position of an earliest date not before the target, None exactly when every date is before it |
| Dates.SortDistinct | src/data/data_processor.py:116-117 | ascending, with the same dates, and the same length for distinct input |
| Dates.AscendingUnique | src/data/data_processor.py:116-117 | two ascending sequences with the same dates are equal, so sorting the index and sorting the dates agree |
| Dates.Union | src/data/data_processor.py:70 | holds the dates of either input, without duplicates when the inputs have none |

## Left out

- Network and provider access (yfinance, `DataFetcher`) is left out. The provider's answers are inputs: `Fetcher` and `Ticker` hold the tables, the share count, the share history and the dividends, with `None` where the provider gives nothing or raises.
- `get_shares_outstanding_history` does not exist on the repository's `DataFetcher`. The call is an input that is either `NoSuchMethod` (the call raises, and the result is `None`) or an answer.
- `print` diagnostics, exception types and Streamlit output are left out. Every caught failure is `None`, or the unchanged dict in `_process_dividends`.
- `tz_localize(None)` is the identity: dates are naive calendar days.
- IEEE floating point is left out. Amounts are exact reals, and NaN and ±inf from missing alignment or division by zero are both `Undefined`.
- Formatting.RoundHalfEven: rounds the exact real half to even. Python's `:.Nf` rounds the binary double, which can differ from this on a value that is not exactly representable.
- Formatting.FormatPercentage: a negative `decimal_places` (a Python error) cannot be passed, because places is a `nat`.
- Formatting.FormatDate: covers years from 1 on, printed without zero padding. Years below 1000 are where platform `strftime` implementations differ.
- Dates.ValidDate: allows February 29 in every year. Only period ends and provider dates are ever compared, so no leap-year rule is needed.
- DataProcessor.WithDividends: a dividend list that is present but empty leaves the dict unchanged. pandas would raise on a non-datetime index, or add an all-NaN dps for an empty DatetimeIndex. The fetcher returns None instead of an empty series (`src/data/data_fetcher.py:102-104`), so this input does not reach the pipeline.
- The share count checked at `src/data/data_processor.py:41` is only a presence gate, as in the source. Its value is never used.
- Column order of DataFrames and dicts is not modelled: frames and dicts are maps from name to column.
- `src/debug.py`, `src/app.py`, the plotting modules and the chart utilities are not part of this model.
