/**
 * get_normalized_financial_data of src/utils/financial_utils.py: the frame
 * of the older FinancialData revision, with its dividends bucketed and
 * forward-filled onto the frame's dates, turned into the normalized dict.
 * The module's format_financial_value is the one of the Formatting module.
 */
module FinancialUtils {
  import opened Wrappers
  import opened Dates
  import opened Frames
  import opened Constants
  import opened Models
  import opened Normalization
  import opened Resampling
  import opened DataProcessor
  import opened FinancialData

  /**
   * Lines 36-76 on the frame get_financial_data returned. No frame gives
   * None. Otherwise the dates keep the frame's own order (they are not
   * sorted), the nine fields are read column by column, and a missing
   * column raises KeyError, caught as None (78-80). dps is added exactly
   * when there are dividends and dates, holding on each date the total of
   * the latest period bucket that has ended by then.
   */
  method NormalizeFrameData(data: Option<Frame>, dividends: Option<seq<Dividend>>, period: string)
    returns (r: Option<Dict>)
    requires data.Some? ==> ValidFrame(data.value) && AllValid(data.value.index)
    ensures data.None? ==> r.None?
    ensures data.Some? ==> (r.Some? <==> FrameColumns <= data.value.columns.Keys)
    ensures r.Some? ==> r.value == WithDividends(ToNormalizedDict(data.value).value, period, dividends)
  {
    if data.None? {
      return None;
    }
    var df := data.value;
    var dates := df.index;

    var dps: Option<seq<Cell>> := None;
    if dividends.Some? && dividends.value != [] {
      var buckets := Resample(dividends.value, FrequencyFor(period));
      var filled := ReindexFfill(buckets, dates);
      if filled.None? {
        return None;
      }
      assert filled.value == BucketedDividends(dividends.value, period, dates);
      dps := filled;
    }

    var normalized := ToNormalizedDict(df);
    if normalized.None? {
      return None;
    }
    var entries := normalized.value;
    assert entries[DATES].dates == dates;
    if dps.Some? && |dps.value| > 0 {
      entries := entries[DPS := ValueList(dps.value)];
    }
    return Some(entries);
  }

  /** The dates of the older frame are Timestamps: each is a date of a statement. */
  lemma LegacyIndexValid(df: Frame, s: Statements, shares: int)
    requires ValidStatements(s) && HasRequiredRows(s) && HasNetWorthRows(s) && LegacyFrame(df, s, shares)
    ensures AllValid(df.index)
  {
    var both := s.income.dates + s.cash.dates;
    assert AllValid(both) by {
      forall i | 0 <= i < |both| ensures ValidDate(both[i]) {
        if i < |s.income.dates| {
          assert both[i] == s.income.dates[i];
        } else {
          assert both[i] == s.cash.dates[i - |s.income.dates|];
        }
      }
    }
    AllValidSubset(both, df.index);
  }

  /**
   * get_normalized_financial_data: whatever the ticker holds, the result
   * is None. With no frame the function returns None at line 39; a frame
   * from get_financial_data lacks the 営業利益率 column, so reading it at
   * line 68 raises and the handler returns None.
   */
  method GetNormalizedFinancialData(t: Ticker, period: string) returns (r: Option<Dict>)
    requires ValidTicker(t)
    ensures r.None?
  {
    var data := GetFinancialData(t, period);
    if data.Some? {
      var s := SelectStatements(t, period);
      LegacyIndexValid(data.value, s, t.sharesOutstanding.value);
      assert KEY_OPERATING_MARGIN in FrameColumns;
    }
    var dividends := GetDividends(t);
    r := NormalizeFrameData(data, dividends, period);
  }
}
