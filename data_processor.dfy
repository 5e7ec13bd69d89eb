/**
 * DataProcessor (src/data/data_processor.py): the current pipeline from
 * the fetcher's statements to a FinancialDataModel.
 */
module DataProcessor {
  import opened Wrappers
  import opened Dates
  import opened Frames
  import opened Constants
  import opened Resampling
  import opened Models
  import opened Normalization

  /**
   * What the call `get_shares_outstanding_history(period)` yields. The
   * repository's DataFetcher has no such method (NoSuchMethod); a fetcher
   * that has it answers with a share-count Series or None.
   */
  datatype ShareHistoryCall = NoSuchMethod | Answered(history: Option<Series>)

  /** The answers the data fetcher gives for the requested period. */
  datatype Fetcher = Fetcher(
    income: Option<Table>,
    balance: Option<Table>,
    cash: Option<Table>,
    shares: Option<int>,
    shareHistory: ShareHistoryCall,
    dividends: Option<seq<Dividend>>)

  /** Statements are well-formed DataFrames, the share history a well-formed Series. */
  predicate ValidFetcher(p: Fetcher) {
    (p.income.Some? ==> ValidTable(p.income.value)) &&
    (p.balance.Some? ==> ValidTable(p.balance.value)) &&
    (p.cash.Some? ==> ValidTable(p.cash.value)) &&
    (p.shareHistory.Answered? && p.shareHistory.history.Some? ==>
       |p.shareHistory.history.value.index| == |p.shareHistory.history.value.values|)
  }

  /** The names of the required items whose row label is absent, in the dict's order. */
  function MissingItems(income: Table, cash: Table): (r: seq<string>)
    ensures forall item :: item in r <==>
              (item == KEY_REVENUE && YF_REVENUE !in income.rows) ||
              (item == KEY_OPERATING_INCOME && YF_OPERATING_INCOME !in income.rows) ||
              (item == KEY_NET_INCOME && YF_NET_INCOME !in income.rows) ||
              (item == KEY_OPERATING_CASH_FLOW && YF_OPERATING_CASH_FLOW !in cash.rows)
    ensures |r| <= 4
  {
    (if YF_REVENUE in income.rows then [] else [KEY_REVENUE]) +
    (if YF_OPERATING_INCOME in income.rows then [] else [KEY_OPERATING_INCOME]) +
    (if YF_NET_INCOME in income.rows then [] else [KEY_NET_INCOME]) +
    (if YF_OPERATING_CASH_FLOW in cash.rows then [] else [KEY_OPERATING_CASH_FLOW])
  }

  /** The statements, the required rows and a share history pandas can forward-fill are there. */
  predicate Gathered(p: Fetcher) {
    p.income.Some? && p.balance.Some? && p.cash.Some? && p.shares.Some? &&
    YF_REVENUE in p.income.value.rows && YF_OPERATING_INCOME in p.income.value.rows &&
    YF_NET_INCOME in p.income.value.rows && YF_OPERATING_CASH_FLOW in p.cash.value.rows &&
    p.shareHistory.Answered? && p.shareHistory.history.Some? &&
    (Ascending(p.shareHistory.history.value.index) || Descending(p.shareHistory.history.value.index))
  }

  /** Every input the pipeline needs is there: the condition under which it returns a model. */
  predicate Complete(p: Fetcher) {
    Gathered(p) &&
    (YF_STOCKHOLDER_EQUITY in p.balance.value.rows ||
     (YF_TOTAL_ASSETS in p.balance.value.rows && YF_TOTAL_LIABILITIES in p.balance.value.rows))
  }

  /** The share count of date d: the history forward-filled onto the revenue dates. */
  function SharesOn(income: Table, history: Series, d: Date): Cell
    requires |history.index| == |history.values|
  {
    if d in income.dates then FfillAt(history, d) else Undefined
  }

  /** Net worth on date d: stockholder equity, or else total assets minus total liabilities. */
  function BookValueOn(balance: Table, d: Date): Cell
    requires ValidTable(balance)
    requires YF_STOCKHOLDER_EQUITY in balance.rows ||
             (YF_TOTAL_ASSETS in balance.rows && YF_TOTAL_LIABILITIES in balance.rows)
  {
    if YF_STOCKHOLDER_EQUITY in balance.rows then RowOn(balance, YF_STOCKHOLDER_EQUITY, d)
    else Sub(RowOn(balance, YF_TOTAL_ASSETS, d), RowOn(balance, YF_TOTAL_LIABILITIES, d))
  }

  /**
   * For each numeric field of the result, the value it must hold on date d:
   * the statement rows, the forward-filled share count, and the metrics
   * computed from the same date's values only.
   */
  function ValueOn(p: Fetcher, k: Metric, d: Date): Cell
    requires ValidFetcher(p) && Complete(p)
  {
    var income, balance, cash := p.income.value, p.balance.value, p.cash.value;
    var history := p.shareHistory.history.value;
    match k
    case Revenue => RowOn(income, YF_REVENUE, d)
    case OperatingIncome => RowOn(income, YF_OPERATING_INCOME, d)
    case NetIncome => RowOn(income, YF_NET_INCOME, d)
    case OperatingCashFlow => RowOn(cash, YF_OPERATING_CASH_FLOW, d)
    case Shares => SharesOn(income, history, d)
    case Eps => Div(RowOn(income, YF_NET_INCOME, d), SharesOn(income, history, d))
    case Bps => Div(BookValueOn(balance, d), SharesOn(income, history, d))
    case OperatingMargin => Percent(RowOn(income, YF_OPERATING_INCOME, d), RowOn(income, YF_REVENUE, d))
    case OperatingCashFlowPerShare => Div(RowOn(cash, YF_OPERATING_CASH_FLOW, d), SharesOn(income, history, d))
  }

  /** ValueOn of field k, as a function of the date. */
  ghost function Expected(p: Fetcher, k: Metric): Date -> Cell
    requires ValidFetcher(p) && Complete(p)
  {
    d => ValueOn(p, k, d)
  }

  /** One row per date of the income or cash flow statement, in ascending order. */
  ghost predicate DatesDescribed(m: FinancialDataModel, p: Fetcher)
    requires ValidFetcher(p) && Complete(p)
  {
    m.dates.DateList? && Ascending(m.dates.dates) &&
    forall d :: d in m.dates.dates <==> d in p.income.value.dates || d in p.cash.value.dates
  }

  /** Each numeric field holds, position by position, the Expected value of that position's date. */
  ghost predicate FieldsDescribed(m: FinancialDataModel, p: Fetcher)
    requires ValidFetcher(p) && Complete(p)
  {
    m.dates.DateList? && forall k :: Tracks(Field(m, KeyOf(k)), m.dates.dates, Expected(p, k))
  }

  /** dps is present exactly when there are dividends and dates, and holds each date's dividend. */
  ghost predicate DividendsDescribed(m: FinancialDataModel, p: Fetcher, period: string) {
    m.dates.DateList? &&
    (m.dps.Some? <==> p.dividends.Some? && p.dividends.value != [] && |m.dates.dates| > 0) &&
    (m.dps.Some? ==> Tracks(m.dps.value, m.dates.dates, d => DividendOn(p.dividends.value, FrequencyFor(period), d)))
  }

  /** What a successful run returns. */
  ghost predicate Describes(m: FinancialDataModel, p: Fetcher, period: string)
    requires ValidFetcher(p) && Complete(p)
  {
    DatesDescribed(m, p) && FieldsDescribed(m, p) && DividendsDescribed(m, p, period)
  }

  /** The forward-filled share Series, aligned onto any index, gives SharesOn. */
  lemma SharesFollow(income: Table, history: Series, shares: Series, filled: seq<Cell>)
    requires ValidTable(income) && |history.index| == |history.values|
    requires |filled| == |income.dates| && shares == Series(income.dates, filled)
    requires forall i :: 0 <= i < |income.dates| ==> filled[i] == FfillAt(history, income.dates[i])
    ensures ValidSeries(shares)
    ensures forall d :: At(shares, d) == SharesOn(income, history, d)
  {
    forall d
      ensures At(shares, d) == SharesOn(income, history, d)
    {
      if d in income.dates {
        var j :| 0 <= j < |income.dates| && income.dates[j] == d;
      }
    }
  }

  /** The data dict of lines 46-67: the four statement rows and the forward-filled share count. */
  function StatementData(p: Fetcher): (data: seq<(string, Series)>)
    requires ValidFetcher(p) && Gathered(p)
    ensures |data| == 5 && UniqueNames(data)
    ensures forall k :: 0 <= k < |data| ==> ValidSeries(data[k].1)
  {
    var income, cash := p.income.value, p.cash.value;
    var revenue := Loc(income, YF_REVENUE).value;
    var filled := ReindexFfill(p.shareHistory.history.value, revenue.index).value;
    [(KEY_REVENUE, revenue),
     (KEY_OPERATING_INCOME, Loc(income, YF_OPERATING_INCOME).value),
     (KEY_NET_INCOME, Loc(income, YF_NET_INCOME).value),
     (KEY_OPERATING_CASH_FLOW, Loc(cash, YF_OPERATING_CASH_FLOW).value),
     (KEY_SHARES, Series(revenue.index, filled))]
  }

  /** The columns the per-share metrics are computed from. */
  predicate HasStatementColumns(df: Frame) {
    KEY_REVENUE in df.columns && KEY_OPERATING_INCOME in df.columns && KEY_NET_INCOME in df.columns &&
    KEY_OPERATING_CASH_FLOW in df.columns && KEY_SHARES in df.columns
  }

  /** Lines 73-75: EPS, operating margin and operating cash flow per share, row by row. */
  function AddPerShareMetrics(df: Frame): (r: Frame)
    requires ValidFrame(df) && HasStatementColumns(df)
    ensures ValidFrame(r) && r.index == df.index && KEY_SHARES in r.columns
  {
    var df := WithColumn(df, KEY_EPS, DivColumns(df.columns[KEY_NET_INCOME], df.columns[KEY_SHARES]));
    var df := WithColumn(df, KEY_OPERATING_MARGIN, PercentColumns(df.columns[KEY_OPERATING_INCOME], df.columns[KEY_REVENUE]));
    WithColumn(df, KEY_OPERATING_CASH_FLOW_PER_SHARE, DivColumns(df.columns[KEY_OPERATING_CASH_FLOW], df.columns[KEY_SHARES]))
  }

  /** The DataFrame of lines 70-75: the data dict with the per-share metrics added. */
  function PerShareFrame(p: Fetcher): (df: Frame)
    requires ValidFetcher(p) && Gathered(p)
    ensures ValidFrame(df) && KEY_SHARES in df.columns
  {
    var data := StatementData(p);
    assert data[0].0 == KEY_REVENUE && data[1].0 == KEY_OPERATING_INCOME && data[2].0 == KEY_NET_INCOME;
    assert data[3].0 == KEY_OPERATING_CASH_FLOW && data[4].0 == KEY_SHARES;
    AddPerShareMetrics(DataFrame(data))
  }

  /** The net-worth Series of lines 78-87: the equity row, or assets minus liabilities. */
  function BookValue(balance: Table): (s: Series)
    requires ValidTable(balance)
    requires YF_STOCKHOLDER_EQUITY in balance.rows ||
             (YF_TOTAL_ASSETS in balance.rows && YF_TOTAL_LIABILITIES in balance.rows)
    ensures ValidSeries(s)
    ensures forall d :: At(s, d) == BookValueOn(balance, d)
  {
    if YF_STOCKHOLDER_EQUITY in balance.rows then Loc(balance, YF_STOCKHOLDER_EQUITY).value
    else SubSeries(Loc(balance, YF_TOTAL_ASSETS).value, Loc(balance, YF_TOTAL_LIABILITIES).value)
  }

  /** The DataFrame of lines 70-90: PerShareFrame with the BPS column added. */
  function MetricsFrame(p: Fetcher): (df: Frame)
    requires ValidFetcher(p) && Complete(p)
    ensures ValidFrame(df)
  {
    var df := PerShareFrame(p);
    WithColumn(df, KEY_BPS, DivByColumn(BookValue(p.balance.value), df, KEY_SHARES))
  }

  /**
   * The statement of lines 46-90 that sets the column of field k: the data
   * dict (0), then EPS, operating margin, operating cash flow per share and
   * BPS, in this order.
   */
  function Step(k: Metric): nat {
    match k
    case Eps => 1
    case OperatingMargin => 2
    case OperatingCashFlowPerShare => 3
    case Bps => 4
    case _ => 0
  }

  /** The columns set by step n or earlier hold, in every row, the Expected value of that row's date. */
  ghost predicate FollowsUpTo(df: Frame, p: Fetcher, n: nat)
    requires ValidFetcher(p) && Complete(p)
  {
    forall k :: Step(k) <= n ==> Follows(df, ColumnOf(k), Expected(p, k))
  }

  /**
   * The frame holds one row per date of the income or cash flow statement,
   * and each of the nine columns holds, in every row, the Expected value of
   * that row's date.
   */
  ghost predicate FrameDescribes(df: Frame, p: Fetcher)
    requires ValidFetcher(p) && Complete(p)
  {
    (forall d :: d in df.index <==> d in p.income.value.dates || d in p.cash.value.dates) &&
    forall k :: Follows(df, ColumnOf(k), Expected(p, k))
  }

  /** Setting the column of the field of step n + 1 to values that follow it extends FollowsUpTo to n + 1. */
  lemma AddColumn(df: Frame, p: Fetcher, n: nat, k: Metric, values: seq<Cell>)
    requires ValidFetcher(p) && Complete(p) && ValidFrame(df) && |values| == |df.index|
    requires FollowsUpTo(df, p, n) && Step(k) == n + 1
    requires Follows(WithColumn(df, ColumnOf(k), values), ColumnOf(k), Expected(p, k))
    ensures FollowsUpTo(WithColumn(df, ColumnOf(k), values), p, n + 1)
  {
    ColumnOfInjective();
    forall l | Step(l) <= n + 1
      ensures Follows(WithColumn(df, ColumnOf(k), values), ColumnOf(l), Expected(p, l))
    {
      if Step(l) <= n {
        WithColumnFollows(df, ColumnOf(l), Expected(p, l), ColumnOf(k), values);
      } else {
        assert l == k;
      }
    }
  }

  /** The dict's index is the union of the statement dates. */
  lemma StatementIndex(p: Fetcher)
    requires ValidFetcher(p) && Complete(p)
    ensures forall d :: d in IndexUnion(StatementData(p)) <==> d in p.income.value.dates || d in p.cash.value.dates
  {
    var data := StatementData(p);
    forall d
      ensures InSomeIndex(data, d) <==> d in p.income.value.dates || d in p.cash.value.dates
    {
      assert data[..5] == data;
      assert data[..4][..3] == data[..3] && data[..3][..2] == data[..2] && data[..2][..1] == data[..1];
      assert InSomeIndex(data[..1], d) <==> d in data[0].1.index;
      assert InSomeIndex(data[..2], d) <==> InSomeIndex(data[..1], d) || d in data[1].1.index;
      assert InSomeIndex(data[..3], d) <==> InSomeIndex(data[..2], d) || d in data[2].1.index;
      assert InSomeIndex(data[..4], d) <==> InSomeIndex(data[..3], d) || d in data[3].1.index;
      assert InSomeIndex(data, d) <==> InSomeIndex(data[..4], d) || d in data[4].1.index;
    }
  }

  /** Entry i of the data dict, aligned on the union of dates, gives the column of field k. */
  lemma StatementColumnFollows(p: Fetcher, i: nat, k: Metric)
    requires ValidFetcher(p) && Complete(p) && i < 5
    requires StatementData(p)[i].0 == ColumnOf(k)
    requires forall d :: Expected(p, k)(d) == At(StatementData(p)[i].1, d)
    ensures Follows(DataFrame(StatementData(p)), ColumnOf(k), Expected(p, k))
  {
    var data := StatementData(p);
    AlignFollows(DataFrame(data), ColumnOf(k), data[i].1, Expected(p, k));
  }

  /** The share-count entry holds SharesOn on every date. */
  lemma SharesEntry(p: Fetcher)
    requires ValidFetcher(p) && Complete(p)
    ensures StatementData(p)[4].0 == ColumnOf(Shares)
    ensures forall d :: Expected(p, Shares)(d) == At(StatementData(p)[4].1, d)
  {
    var data := StatementData(p);
    SharesFollow(p.income.value, p.shareHistory.history.value, data[4].1, data[4].1.values);
  }

  /** The frame of the data dict follows the statements and the share count. */
  lemma StatementFrameFollows(p: Fetcher)
    requires ValidFetcher(p) && Complete(p)
    ensures FollowsUpTo(DataFrame(StatementData(p)), p, 0)
  {
    StatementColumnFollows(p, 0, Revenue);
    StatementColumnFollows(p, 1, OperatingIncome);
    StatementColumnFollows(p, 2, NetIncome);
    StatementColumnFollows(p, 3, OperatingCashFlow);
    SharesEntry(p);
    StatementColumnFollows(p, 4, Shares);
  }

  /** Setting the column of field k, of step n + 1, to the quotient of the columns of a and b. */
  lemma DivStep(df: Frame, p: Fetcher, n: nat, a: Metric, b: Metric, k: Metric)
    requires ValidFetcher(p) && Complete(p) && ValidFrame(df) && FollowsUpTo(df, p, n)
    requires Step(a) <= n && Step(b) <= n && Step(k) == n + 1
    requires forall d :: ValueOn(p, k, d) == Div(ValueOn(p, a, d), ValueOn(p, b, d))
    ensures FollowsUpTo(WithColumn(df, ColumnOf(k), DivColumns(df.columns[ColumnOf(a)], df.columns[ColumnOf(b)])), p, n + 1)
  {
    DivColumnsFollows(df, ColumnOf(a), Expected(p, a), ColumnOf(b), Expected(p, b), ColumnOf(k), Expected(p, k));
    AddColumn(df, p, n, k, DivColumns(df.columns[ColumnOf(a)], df.columns[ColumnOf(b)]));
  }

  /** Setting the column of field k, of step n + 1, to the percentage of the columns of a and b. */
  lemma PercentStep(df: Frame, p: Fetcher, n: nat, a: Metric, b: Metric, k: Metric)
    requires ValidFetcher(p) && Complete(p) && ValidFrame(df) && FollowsUpTo(df, p, n)
    requires Step(a) <= n && Step(b) <= n && Step(k) == n + 1
    requires forall d :: ValueOn(p, k, d) == Percent(ValueOn(p, a, d), ValueOn(p, b, d))
    ensures FollowsUpTo(WithColumn(df, ColumnOf(k), PercentColumns(df.columns[ColumnOf(a)], df.columns[ColumnOf(b)])), p, n + 1)
  {
    PercentColumnsFollows(df, ColumnOf(a), Expected(p, a), ColumnOf(b), Expected(p, b), ColumnOf(k), Expected(p, k));
    AddColumn(df, p, n, k, PercentColumns(df.columns[ColumnOf(a)], df.columns[ColumnOf(b)]));
  }

  /** The EPS column, once set, follows net income over the share count. */
  lemma EpsStep(df: Frame, p: Fetcher)
    requires ValidFetcher(p) && Complete(p) && ValidFrame(df) && FollowsUpTo(df, p, 0)
    ensures KEY_NET_INCOME in df.columns && KEY_SHARES in df.columns
    ensures FollowsUpTo(WithColumn(df, KEY_EPS, DivColumns(df.columns[KEY_NET_INCOME], df.columns[KEY_SHARES])), p, 1)
  {
    assert Step(NetIncome) <= 0 && Step(Shares) <= 0;
    DivStep(df, p, 0, NetIncome, Shares, Eps);
  }

  /** The operating-margin column, once set, follows operating income over revenue, in percent. */
  lemma MarginStep(df: Frame, p: Fetcher)
    requires ValidFetcher(p) && Complete(p) && ValidFrame(df) && FollowsUpTo(df, p, 1)
    ensures KEY_OPERATING_INCOME in df.columns && KEY_REVENUE in df.columns
    ensures FollowsUpTo(WithColumn(df, KEY_OPERATING_MARGIN, PercentColumns(df.columns[KEY_OPERATING_INCOME], df.columns[KEY_REVENUE])), p, 2)
  {
    assert Step(OperatingIncome) <= 1 && Step(Revenue) <= 1;
    PercentStep(df, p, 1, OperatingIncome, Revenue, OperatingMargin);
  }

  /** The operating-cash-flow-per-share column, once set, follows operating cash flow over the share count. */
  lemma CashFlowPerShareStep(df: Frame, p: Fetcher)
    requires ValidFetcher(p) && Complete(p) && ValidFrame(df) && FollowsUpTo(df, p, 2)
    ensures KEY_OPERATING_CASH_FLOW in df.columns && KEY_SHARES in df.columns
    ensures FollowsUpTo(WithColumn(df, KEY_OPERATING_CASH_FLOW_PER_SHARE,
                                   DivColumns(df.columns[KEY_OPERATING_CASH_FLOW], df.columns[KEY_SHARES])), p, 3)
  {
    assert Step(OperatingCashFlow) <= 2 && Step(Shares) <= 2;
    DivStep(df, p, 2, OperatingCashFlow, Shares, OperatingCashFlowPerShare);
  }

  /** The per-share metrics follow their operands' rows. */
  lemma AddPerShareMetricsFollows(df: Frame, p: Fetcher)
    requires ValidFetcher(p) && Complete(p) && ValidFrame(df) && FollowsUpTo(df, p, 0)
    ensures HasStatementColumns(df)
    ensures FollowsUpTo(AddPerShareMetrics(df), p, 3)
  {
    EpsStep(df, p);
    assert Step(Revenue) <= 0 && Step(OperatingIncome) <= 0 && Step(OperatingCashFlow) <= 0;
    var df1 := WithColumn(df, KEY_EPS, DivColumns(df.columns[KEY_NET_INCOME], df.columns[KEY_SHARES]));
    MarginStep(df1, p);
    var df2 := WithColumn(df1, KEY_OPERATING_MARGIN, PercentColumns(df1.columns[KEY_OPERATING_INCOME], df1.columns[KEY_REVENUE]));
    CashFlowPerShareStep(df2, p);
  }

  /** The book value per share follows the net worth and the share count. */
  lemma AddBookValueFollows(df: Frame, p: Fetcher, book: Series)
    requires ValidFetcher(p) && Complete(p) && ValidFrame(df) && ValidSeries(book)
    requires FollowsUpTo(df, p, 3)
    requires forall d :: At(book, d) == BookValueOn(p.balance.value, d)
    ensures KEY_SHARES in df.columns
    ensures forall k :: Follows(WithColumn(df, KEY_BPS, DivByColumn(book, df, KEY_SHARES)), ColumnOf(k), Expected(p, k))
  {
    assert Step(Shares) <= 3;
    DivByColumnFollows(df, book, KEY_SHARES, Expected(p, Shares), KEY_BPS, Expected(p, Bps));
    AddColumn(df, p, 3, Bps, DivByColumn(book, df, KEY_SHARES));
  }

  /** The index of the frame is the union of the statement dates. */
  lemma PerShareFrameIndex(p: Fetcher)
    requires ValidFetcher(p) && Complete(p)
    ensures forall d :: d in PerShareFrame(p).index <==> d in p.income.value.dates || d in p.cash.value.dates
  {
    StatementIndex(p);
  }

  /** The per-share frame follows the statements and the metrics derived from them. */
  lemma PerShareFrameFollows(p: Fetcher)
    requires ValidFetcher(p) && Complete(p)
    ensures FollowsUpTo(PerShareFrame(p), p, 3)
  {
    StatementFrameFollows(p);
    AddPerShareMetricsFollows(DataFrame(StatementData(p)), p);
  }

  /** The finished frame satisfies FrameDescribes. */
  lemma MetricsFrameDescribes(p: Fetcher)
    requires ValidFetcher(p) && Complete(p)
    ensures FrameDescribes(MetricsFrame(p), p)
  {
    PerShareFrameFollows(p);
    PerShareFrameIndex(p);
    AddBookValueFollows(PerShareFrame(p), p, BookValue(p.balance.value));
  }

  /** The normalized dict: the one object _process_dividends inserts into. */
  class NormalizedData {
    var entries: Dict

    constructor(entries: Dict)
      ensures this.entries == entries
    {
      this.entries := entries;
    }
  }

  /** Every dates list in the dict holds Timestamps. */
  predicate DatesWellFormed(entries: Dict) {
    DATES in entries ==> entries[DATES].DateList? && AllValid(entries[DATES].dates)
  }

  /**
   * The dict after the dividend step: unchanged unless there are dividends
   * and dates; otherwise dps is added and nothing else changes.
   */
  function WithDividends(entries: Dict, period: string, dividends: Option<seq<Dividend>>): (r: Dict)
    requires DatesWellFormed(entries)
    ensures var added := dividends.Some? && dividends.value != [] && DATES in entries && |entries[DATES].dates| > 0;
            r.Keys == (if added then entries.Keys + {DPS} else entries.Keys) &&
            (forall key :: key in entries && key != DPS ==> r[key] == entries[key]) &&
            (!added ==> r == entries) &&
            (added ==> Tracks(r[DPS], entries[DATES].dates, d => DividendOn(dividends.value, FrequencyFor(period), d)))
  {
    if dividends.None? || dividends.value == [] || DATES !in entries then entries
    else
      var dates := entries[DATES].dates;
      var dps := BucketedDividends(dividends.value, period, dates);
      if |dps| > 0 then entries[DPS := ValueList(dps)] else entries
  }

  /** The rows of a frame satisfying FrameDescribes are Timestamps. */
  lemma FrameDatesValid(df: Frame, p: Fetcher)
    requires ValidFetcher(p) && Complete(p) && FrameDescribes(df, p)
    ensures AllValid(df.index)
  {
    var income, cash := p.income.value, p.cash.value;
    forall i | 0 <= i < |df.index|
      ensures ValidDate(df.index[i])
    {
      if df.index[i] in income.dates {
        var j :| 0 <= j < |income.dates| && income.dates[j] == df.index[i];
      } else {
        var j :| 0 <= j < |cash.dates| && cash.dates[j] == df.index[i];
      }
    }
  }

  /** The frame carries every column the dict reads. */
  lemma FrameHasColumns(df: Frame, p: Fetcher)
    requires ValidFetcher(p) && Complete(p) && FrameDescribes(df, p)
    ensures FrameColumns <= df.columns.Keys
  {
    forall name | name in FrameColumns
      ensures name in df.columns
    {
      var k := if name == KEY_REVENUE then Revenue
               else if name == KEY_OPERATING_INCOME then OperatingIncome
               else if name == KEY_NET_INCOME then NetIncome
               else if name == KEY_OPERATING_CASH_FLOW then OperatingCashFlow
               else if name == KEY_SHARES then Shares
               else if name == KEY_EPS then Eps
               else if name == KEY_BPS then Bps
               else if name == KEY_OPERATING_MARGIN then OperatingMargin
               else OperatingCashFlowPerShare;
      assert ColumnOf(k) == name;
    }
  }

  /** Normalizing a frame whose rows are Timestamps gives them in ascending order. */
  lemma SortedDates(df: Frame)
    requires ValidFrame(df) && AllValid(df.index) && FrameColumns <= df.columns.Keys
    ensures var ds := NormalizeData(df).value[DATES].dates;
            AllValid(ds) && Ascending(ds) && forall d :: d in ds <==> d in df.index
  {
    AllValidSubset(df.index, NormalizeData(df).value[DATES].dates);
  }

  /** The dates of the normalized dict: ascending Timestamps, those of the income or cash flow statement. */
  lemma NormalizedDates(df: Frame, p: Fetcher)
    requires ValidFetcher(p) && Complete(p) && ValidFrame(df) && FrameDescribes(df, p)
    ensures FrameColumns <= df.columns.Keys
    ensures var n := NormalizeData(df).value;
            DatesWellFormed(n) && n[DATES].DateList? && Ascending(n[DATES].dates) &&
            forall d :: d in n[DATES].dates <==> d in p.income.value.dates || d in p.cash.value.dates
  {
    FrameHasColumns(df, p);
    FrameDatesValid(df, p);
    SortedDates(df);
  }

  /** Sorting and normalizing carries one column's rows into the dict. */
  lemma FollowsToTracks(df: Frame, k: Metric, g: Date -> Cell)
    requires ValidFrame(df) && FrameColumns <= df.columns.Keys && Follows(df, ColumnOf(k), g)
    ensures NormalizeData(df).value[DATES] == DateList(SortIndex(df).index)
    ensures Tracks(NormalizeData(df).value[KeyOf(k)], SortIndex(df).index, g)
  {
    SortIndexFollows(df, ColumnOf(k), g);
    NormalizedTracks(SortIndex(df), k, g);
  }

  /** Every field of the normalized dict holds the Expected value of its date. */
  lemma NormalizedFields(df: Frame, p: Fetcher)
    requires ValidFetcher(p) && Complete(p) && ValidFrame(df) && FrameDescribes(df, p)
    ensures FrameColumns <= df.columns.Keys
    ensures NormalizeData(df).value[DATES] == DateList(SortIndex(df).index)
    ensures forall k :: Tracks(NormalizeData(df).value[KeyOf(k)], SortIndex(df).index, Expected(p, k))
  {
    FrameHasColumns(df, p);
    FollowsToTracks(df, Revenue, Expected(p, Revenue));
    forall k
      ensures Tracks(NormalizeData(df).value[KeyOf(k)], SortIndex(df).index, Expected(p, k))
    {
      FollowsToTracks(df, k, Expected(p, k));
    }
  }

  /** The dict a model is built from, once dps is settled. */
  ghost predicate DictDescribes(n: Dict, ds: seq<Date>, p: Fetcher)
    requires ValidFetcher(p) && Complete(p)
  {
    n.Keys == BaseKeys && n[DATES] == DateList(ds) && AllValid(ds) && Ascending(ds) &&
    (forall d :: d in ds <==> d in p.income.value.dates || d in p.cash.value.dates) &&
    forall k :: Tracks(n[KeyOf(k)], ds, Expected(p, k))
  }

  /** The model keeps the dict's dates. */
  lemma ModelDates(n: Dict, ds: seq<Date>, p: Fetcher, period: string)
    requires ValidFetcher(p) && Complete(p) && DictDescribes(n, ds, p)
    ensures DatesWellFormed(n)
    ensures DatesDescribed(FromDict(WithDividends(n, period, p.dividends)), p)
  {
    assert FromDict(WithDividends(n, period, p.dividends)).dates == Field(FromDict(WithDividends(n, period, p.dividends)), DATES);
  }

  /** The model keeps the dict's numeric fields. */
  lemma ModelFields(n: Dict, ds: seq<Date>, p: Fetcher, period: string)
    requires ValidFetcher(p) && Complete(p) && DictDescribes(n, ds, p)
    ensures DatesWellFormed(n)
    ensures FieldsDescribed(FromDict(WithDividends(n, period, p.dividends)), p)
  {
    var m := FromDict(WithDividends(n, period, p.dividends));
    assert m.dates == Field(m, DATES);
    forall k
      ensures Field(m, KeyOf(k)) == n[KeyOf(k)]
    {
    }
  }

  /** The model's dps is the dividend step's. */
  lemma ModelDividends(n: Dict, ds: seq<Date>, p: Fetcher, period: string)
    requires ValidFetcher(p) && Complete(p) && DictDescribes(n, ds, p)
    ensures DatesWellFormed(n)
    ensures DividendsDescribed(FromDict(WithDividends(n, period, p.dividends)), p, period)
  {
    var m := FromDict(WithDividends(n, period, p.dividends));
    assert m.dates == Field(m, DATES);
  }

  /**
   * A frame satisfying FrameDescribes, once normalized, given its dividends
   * and turned into a model, gives a model satisfying Describes.
   */
  lemma PipelineDescribes(df: Frame, p: Fetcher, period: string)
    requires ValidFetcher(p) && Complete(p) && ValidFrame(df) && FrameDescribes(df, p)
    ensures FrameColumns <= df.columns.Keys && DatesWellFormed(NormalizeData(df).value)
    ensures Describes(FromDict(WithDividends(NormalizeData(df).value, period, p.dividends)), p, period)
  {
    NormalizedDates(df, p);
    NormalizedFields(df, p);
    var n := NormalizeData(df).value;
    var ds := SortIndex(df).index;
    assert DictDescribes(n, ds, p);
    ModelDates(n, ds, p, period);
    ModelFields(n, ds, p, period);
    ModelDividends(n, ds, p, period);
  }

  /**
   * _process_dividends: when there are dividends, buckets them by quarter
   * or year, forward-fills the buckets onto the dates and inserts the
   * result as dps. An empty dividend list, which has no date index to
   * normalize, and a dict without dates take the exception path and leave
   * the dict as it was.
   */
  method ProcessDividends(dividends: Option<seq<Dividend>>, data: NormalizedData, period: string)
    requires DatesWellFormed(data.entries)
    modifies data
    ensures data.entries == WithDividends(old(data.entries), period, dividends)
  {
    if dividends.None? {
      return;
    }
    if dividends.value == [] || DATES !in data.entries {
      return;
    }
    var f := FrequencyFor(period);
    var dps := Resample(dividends.value, f);
    var dates := data.entries[DATES].dates;
    var filled := ReindexFfill(dps, dates);
    assert filled.value == BucketedDividends(dividends.value, period, dates);
    if |filled.value| > 0 {
      data.entries := data.entries[DPS := ValueList(filled.value)];
    }
  }

  /**
   * process_financial_data: all-or-nothing. Any absent statement, share
   * count, required row, share history or book-value source gives None;
   * otherwise the model described by Describes.
   */
  method ProcessFinancialData(p: Fetcher, period: string) returns (r: Option<FinancialDataModel>)
    requires ValidFetcher(p)
    ensures r.Some? <==> Complete(p)
    ensures r.Some? ==> Describes(r.value, p, period)
  {
    if p.income.None? || p.balance.None? || p.cash.None? || p.shares.None? {
      return None;
    }
    var income, balance, cash := p.income.value, p.balance.value, p.cash.value;
    if |MissingItems(income, cash)| > 0 {
      return None;
    }
    var revenue := Loc(income, YF_REVENUE).value;
    var operatingIncome := Loc(income, YF_OPERATING_INCOME).value;
    var netIncome := Loc(income, YF_NET_INCOME).value;
    var operatingCashFlow := Loc(cash, YF_OPERATING_CASH_FLOW).value;
    var data := [(KEY_REVENUE, revenue), (KEY_OPERATING_INCOME, operatingIncome),
                 (KEY_NET_INCOME, netIncome), (KEY_OPERATING_CASH_FLOW, operatingCashFlow)];

    if p.shareHistory.NoSuchMethod? || p.shareHistory.history.None? {
      return None;
    }
    var history := p.shareHistory.history.value;
    var filled := ReindexFfill(history, revenue.index);
    if filled.None? {
      return None;
    }
    data := data + [(KEY_SHARES, Series(revenue.index, filled.value))];
    assert data == StatementData(p);

    var df := DataFrame(data);
    assert HasStatementColumns(df) by {
      assert data[0].0 == KEY_REVENUE && data[1].0 == KEY_OPERATING_INCOME && data[2].0 == KEY_NET_INCOME;
      assert data[3].0 == KEY_OPERATING_CASH_FLOW && data[4].0 == KEY_SHARES;
    }
    ghost var statements := df;
    df := WithColumn(df, KEY_EPS, DivColumns(df.columns[KEY_NET_INCOME], df.columns[KEY_SHARES]));
    df := WithColumn(df, KEY_OPERATING_MARGIN, PercentColumns(df.columns[KEY_OPERATING_INCOME], df.columns[KEY_REVENUE]));
    df := WithColumn(df, KEY_OPERATING_CASH_FLOW_PER_SHARE,
                     DivColumns(df.columns[KEY_OPERATING_CASH_FLOW], df.columns[KEY_SHARES]));
    assert df == AddPerShareMetrics(statements);
    assert df == PerShareFrame(p);

    var equity := Loc(balance, YF_STOCKHOLDER_EQUITY);
    if equity.Some? {
      assert equity.value == BookValue(balance);
      df := WithColumn(df, KEY_BPS, DivByColumn(equity.value, df, KEY_SHARES));
    } else {
      var assets := Loc(balance, YF_TOTAL_ASSETS);
      var liabilities := Loc(balance, YF_TOTAL_LIABILITIES);
      if assets.Some? && liabilities.Some? {
        assert SubSeries(assets.value, liabilities.value) == BookValue(balance);
        df := WithColumn(df, KEY_BPS, DivByColumn(SubSeries(assets.value, liabilities.value), df, KEY_SHARES));
      } else {
        return None;
      }
    }
    assert df == MetricsFrame(p);

    MetricsFrameDescribes(p);
    PipelineDescribes(df, p, period);
    var normalized := NormalizeData(df);
    var record := new NormalizedData(normalized.value);
    ProcessDividends(p.dividends, record, period);
    r := Some(FromDict(record.entries));
  }
}
