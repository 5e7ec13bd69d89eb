/**
 * The step both revisions of the pipeline share: turning the per-period
 * DataFrame into the normalized dict of lists (src/data/data_processor.py
 * lines 120-131, src/utils/financial_utils.py lines 59-70).
 */
module Normalization {
  import opened Wrappers
  import opened Dates
  import opened Frames
  import opened Constants
  import opened Models

  /** The nine numeric fields of the normalized dict. */
  datatype Metric = Revenue | OperatingIncome | NetIncome | OperatingCashFlow | Shares
                  | Eps | Bps | OperatingMargin | OperatingCashFlowPerShare

  /** The dict key a field is stored under. */
  function KeyOf(k: Metric): (key: string)
    ensures key in BaseKeys && key != DATES && key != DPS
    ensures MetricOf(key) == k
  {
    match k
    case Revenue => REVENUE
    case OperatingIncome => OPERATING_INCOME
    case NetIncome => NET_INCOME
    case OperatingCashFlow => OPERATING_CASH_FLOW
    case Shares => SHARES
    case Eps => EPS
    case Bps => BPS
    case OperatingMargin => OPERATING_MARGIN
    case OperatingCashFlowPerShare => OPERATING_CASH_FLOW_PER_SHARE
  }

  /** The field stored under a numeric key of the dict. */
  function MetricOf(key: string): Metric
    requires key in BaseKeys && key != DATES
  {
    if key == REVENUE then Revenue
    else if key == OPERATING_INCOME then OperatingIncome
    else if key == NET_INCOME then NetIncome
    else if key == OPERATING_CASH_FLOW then OperatingCashFlow
    else if key == SHARES then Shares
    else if key == EPS then Eps
    else if key == BPS then Bps
    else if key == OPERATING_MARGIN then OperatingMargin
    else OperatingCashFlowPerShare
  }

  /** The DataFrame column a field is read from. */
  function ColumnOf(k: Metric): (name: string)
    ensures name in FrameColumns
  {
    match k
    case Revenue => KEY_REVENUE
    case OperatingIncome => KEY_OPERATING_INCOME
    case NetIncome => KEY_NET_INCOME
    case OperatingCashFlow => KEY_OPERATING_CASH_FLOW
    case Shares => KEY_SHARES
    case Eps => KEY_EPS
    case Bps => KEY_BPS
    case OperatingMargin => KEY_OPERATING_MARGIN
    case OperatingCashFlowPerShare => KEY_OPERATING_CASH_FLOW_PER_SHARE
  }

  /** Different fields read different columns. */
  lemma ColumnOfInjective()
    ensures forall k, l :: k != l ==> ColumnOf(k) != ColumnOf(l)
  {
  }

  /** The nine DataFrame columns the dict is built from. */
  const FrameColumns: set<string> := {KEY_REVENUE, KEY_OPERATING_INCOME, KEY_NET_INCOME,
                                      KEY_OPERATING_CASH_FLOW, KEY_SHARES, KEY_EPS, KEY_BPS,
                                      KEY_OPERATING_MARGIN, KEY_OPERATING_CASH_FLOW_PER_SHARE}

  /** Column c lists g(d) for each date d of ds, position by position. */
  ghost predicate Tracks(c: Column, ds: seq<Date>, g: Date -> Cell) {
    c.ValueList? && |c.values| == |ds| && forall i :: 0 <= i < |ds| ==> c.values[i] == g(ds[i])
  }

  /**
   * The dict literal `{"dates": index, "revenue": df["売上高"].values, ...}`.
   * Reading a column the frame lacks raises KeyError, which is None here.
   */
  function ToNormalizedDict(f: Frame): (r: Option<Dict>)
    requires ValidFrame(f)
    ensures r.Some? <==> FrameColumns <= f.columns.Keys
    ensures r.Some? ==> r.value.Keys == BaseKeys && r.value[DATES] == DateList(f.index)
    ensures r.Some? ==> forall k :: r.value[KeyOf(k)] == ValueList(f.columns[ColumnOf(k)])
  {
    if FrameColumns <= f.columns.Keys then
      Some(map key | key in BaseKeys ::
        if key == DATES then DateList(f.index) else ValueList(f.columns[ColumnOf(MetricOf(key))]))
    else None
  }

  /** A column that follows its dates in the frame keeps doing so in the dict. */
  lemma NormalizedTracks(f: Frame, k: Metric, g: Date -> Cell)
    requires ValidFrame(f) && Follows(f, ColumnOf(k), g)
    requires FrameColumns <= f.columns.Keys
    ensures var d := ToNormalizedDict(f).value;
            d[DATES] == DateList(f.index) && Tracks(d[KeyOf(k)], f.index, g)
  {
  }

  /**
   * _normalize_data: the frame sorted by ascending date, then turned into the
   * dict. The dates are the frame's dates in ascending order, and each field
   * holds, at every position, the frame's value on the row of that
   * position's date.
   */
  function NormalizeData(df: Frame): (r: Option<Dict>)
    requires ValidFrame(df)
    ensures r.Some? <==> FrameColumns <= df.columns.Keys
    ensures r.Some? ==> r.value.Keys == BaseKeys && r.value[DATES].DateList?
    ensures r.Some? ==> var ds := r.value[DATES].dates;
              Ascending(ds) && |ds| == |df.index| && (forall d :: d in ds <==> d in df.index) &&
              forall k, i :: 0 <= i < |ds| ==>
                r.value[KeyOf(k)].ValueList? && |r.value[KeyOf(k)].values| == |ds| &&
                r.value[KeyOf(k)].values[i] == ValueAt(df, ColumnOf(k), ds[i])
  {
    ToNormalizedDict(SortIndex(df))
  }
}
