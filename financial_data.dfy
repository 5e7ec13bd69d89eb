/**
 * FinancialData (src/models/financial_data.py): the older revision of the
 * pipeline. It reads the statements straight from the provider's Ticker,
 * broadcasts one scalar share count over every revenue date and computes
 * BPS from total assets minus total liabilities only.
 */
module FinancialData {
  import opened Wrappers
  import opened Dates
  import opened Frames
  import opened Constants
  import opened Resampling
  import opened Normalization

  /**
   * The attributes of the provider's Ticker the class reads: the annual
   * and quarterly statements, `info["sharesOutstanding"]` (None when the
   * key is absent or reading info raises) and the dividend events (None
   * when reading them raises).
   */
  datatype Ticker = Ticker(
    incomeStmt: Table,
    quarterlyIncomeStmt: Table,
    balanceSheet: Table,
    quarterlyBalanceSheet: Table,
    cashflow: Table,
    quarterlyCashflow: Table,
    sharesOutstanding: Option<int>,
    dividends: Option<seq<Dividend>>)

  predicate ValidTicker(t: Ticker) {
    ValidTable(t.incomeStmt) && ValidTable(t.quarterlyIncomeStmt) &&
    ValidTable(t.balanceSheet) && ValidTable(t.quarterlyBalanceSheet) &&
    ValidTable(t.cashflow) && ValidTable(t.quarterlyCashflow)
  }

  /** The three statements of one period. */
  datatype Statements = Statements(income: Table, balance: Table, cash: Table)

  predicate ValidStatements(s: Statements) {
    ValidTable(s.income) && ValidTable(s.balance) && ValidTable(s.cash)
  }

  /** Lines 29-31: the annual statements for "annual", the quarterly ones otherwise. */
  function SelectStatements(t: Ticker, period: string): (s: Statements)
    requires ValidTicker(t)
    ensures ValidStatements(s)
  {
    if period == PERIOD_ANNUAL then Statements(t.incomeStmt, t.balanceSheet, t.cashflow)
    else Statements(t.quarterlyIncomeStmt, t.quarterlyBalanceSheet, t.quarterlyCashflow)
  }

  /**
   * "annual" selects the three annual statements; every other period
   * string, "quarterly" or not, selects the three quarterly ones.
   */
  lemma OnlyAnnualIsAnnual(t: Ticker, period: string)
    requires ValidTicker(t)
    ensures period == PERIOD_ANNUAL ==> SelectStatements(t, period) == Statements(t.incomeStmt, t.balanceSheet, t.cashflow)
    ensures period != PERIOD_ANNUAL ==>
              SelectStatements(t, period) == Statements(t.quarterlyIncomeStmt, t.quarterlyBalanceSheet, t.quarterlyCashflow)
    ensures period != PERIOD_ANNUAL ==> SelectStatements(t, period) == SelectStatements(t, PERIOD_QUARTERLY)
  {
    assert PERIOD_QUARTERLY != PERIOD_ANNUAL;
  }

  /** The four statement rows of the data dict are there. */
  predicate HasRequiredRows(s: Statements) {
    YF_REVENUE in s.income.rows && YF_OPERATING_INCOME in s.income.rows &&
    YF_NET_INCOME in s.income.rows && YF_OPERATING_CASH_FLOW in s.cash.rows
  }

  /** The two balance-sheet rows BPS is computed from are there. */
  predicate HasNetWorthRows(s: Statements) {
    YF_TOTAL_ASSETS in s.balance.rows && YF_TOTAL_LIABILITIES in s.balance.rows
  }

  /** `if shares:` — an absent count and a count of 0 are both falsy. */
  predicate Truthy(shares: Option<int>) {
    shares.Some? && shares.value != 0
  }

  /** The condition under which get_financial_data returns a frame. */
  predicate Produces(s: Statements, shares: Option<int>) {
    !IsEmpty(s.income) && !IsEmpty(s.balance) && !IsEmpty(s.cash) &&
    Truthy(shares) && HasRequiredRows(s) && HasNetWorthRows(s)
  }

  /** The fields this revision's frame has: all but the margin and the cash flow per share. */
  function LegacyStep(k: Metric): nat {
    match k
    case Eps => 1
    case Bps => 2
    case OperatingMargin => 3
    case OperatingCashFlowPerShare => 3
    case _ => 0
  }

  predicate InLegacyFrame(k: Metric) {
    LegacyStep(k) <= 2
  }

  /** The broadcast share count on date d: the scalar on the revenue dates, Undefined elsewhere. */
  function ShareCountOn(income: Table, shares: int, d: Date): Cell {
    if d in income.dates then Num(shares as real) else Undefined
  }

  /** The value column k of the frame must hold on date d. */
  function LegacyValueOn(s: Statements, shares: int, k: Metric, d: Date): Cell
    requires ValidStatements(s) && HasRequiredRows(s) && HasNetWorthRows(s) && InLegacyFrame(k)
  {
    match k
    case Revenue => RowOn(s.income, YF_REVENUE, d)
    case OperatingIncome => RowOn(s.income, YF_OPERATING_INCOME, d)
    case NetIncome => RowOn(s.income, YF_NET_INCOME, d)
    case OperatingCashFlow => RowOn(s.cash, YF_OPERATING_CASH_FLOW, d)
    case Shares => ShareCountOn(s.income, shares, d)
    case Eps => Div(RowOn(s.income, YF_NET_INCOME, d), ShareCountOn(s.income, shares, d))
    case Bps => Div(Sub(RowOn(s.balance, YF_TOTAL_ASSETS, d), RowOn(s.balance, YF_TOTAL_LIABILITIES, d)),
                    ShareCountOn(s.income, shares, d))
  }

  ghost function LegacyExpected(s: Statements, shares: int, k: Metric): Date -> Cell
    requires ValidStatements(s) && HasRequiredRows(s) && HasNetWorthRows(s) && InLegacyFrame(k)
  {
    d => LegacyValueOn(s, shares, k, d)
  }

  /**
   * What a successful call returns: one row per date of the income or
   * cash flow statement, the seven columns of this revision each holding
   * the value of its row's date, and no margin or cash-flow-per-share
   * column.
   */
  ghost predicate LegacyFrame(df: Frame, s: Statements, shares: int)
    requires ValidStatements(s) && HasRequiredRows(s) && HasNetWorthRows(s)
  {
    ValidFrame(df) &&
    (forall d :: d in df.index <==> d in s.income.dates || d in s.cash.dates) &&
    (forall k :: InLegacyFrame(k) ==> Follows(df, ColumnOf(k), LegacyExpected(s, shares, k))) &&
    KEY_OPERATING_MARGIN !in df.columns && KEY_OPERATING_CASH_FLOW_PER_SHARE !in df.columns
  }

  /** `pd.Series([shares] * len(index), index=index)`. */
  function Broadcast(shares: int, index: seq<Date>): (s: Series)
    ensures s.index == index && |s.values| == |index|
    ensures forall i :: 0 <= i < |index| ==> s.values[i] == Num(shares as real)
  {
    Series(index, seq(|index|, _ => Num(shares as real)))
  }

  /** The data dict of lines 38-56 once every entry is a Series. */
  function LegacyData(s: Statements, shares: int): (data: seq<(string, Series)>)
    requires ValidStatements(s) && HasRequiredRows(s)
    ensures |data| == 5 && UniqueNames(data)
    ensures forall k :: 0 <= k < |data| ==> ValidSeries(data[k].1)
  {
    var revenue := Loc(s.income, YF_REVENUE).value;
    [(KEY_REVENUE, revenue),
     (KEY_OPERATING_INCOME, Loc(s.income, YF_OPERATING_INCOME).value),
     (KEY_NET_INCOME, Loc(s.income, YF_NET_INCOME).value),
     (KEY_OPERATING_CASH_FLOW, Loc(s.cash, YF_OPERATING_CASH_FLOW).value),
     (KEY_SHARES, Broadcast(shares, revenue.index))]
  }

  /** The columns set by step n or earlier hold the value of each row's date. */
  ghost predicate LegacyUpTo(df: Frame, s: Statements, shares: int, n: nat)
    requires ValidStatements(s) && HasRequiredRows(s) && HasNetWorthRows(s) && n <= 2
  {
    forall k :: LegacyStep(k) <= n ==> Follows(df, ColumnOf(k), LegacyExpected(s, shares, k))
  }

  /** Setting the column of the field of step n + 1 extends LegacyUpTo to n + 1. */
  lemma LegacyAddColumn(df: Frame, s: Statements, shares: int, n: nat, k: Metric, values: seq<Cell>)
    requires ValidStatements(s) && HasRequiredRows(s) && HasNetWorthRows(s)
    requires ValidFrame(df) && |values| == |df.index| && n < 2
    requires LegacyUpTo(df, s, shares, n) && LegacyStep(k) == n + 1
    requires Follows(WithColumn(df, ColumnOf(k), values), ColumnOf(k), LegacyExpected(s, shares, k))
    ensures LegacyUpTo(WithColumn(df, ColumnOf(k), values), s, shares, n + 1)
  {
    ColumnOfInjective();
    forall l | LegacyStep(l) <= n + 1
      ensures Follows(WithColumn(df, ColumnOf(k), values), ColumnOf(l), LegacyExpected(s, shares, l))
    {
      if LegacyStep(l) <= n {
        WithColumnFollows(df, ColumnOf(l), LegacyExpected(s, shares, l), ColumnOf(k), values);
      } else {
        assert l == k;
      }
    }
  }

  /** The dict's index is the union of the income and cash flow dates. */
  lemma LegacyIndex(s: Statements, shares: int)
    requires ValidStatements(s) && HasRequiredRows(s)
    ensures forall d :: d in IndexUnion(LegacyData(s, shares)) <==> d in s.income.dates || d in s.cash.dates
  {
    var data := LegacyData(s, shares);
    forall d
      ensures InSomeIndex(data, d) <==> d in s.income.dates || d in s.cash.dates
    {
      assert data[..5] == data;
      assert data[..4][..3] == data[..3] && data[..3][..2] == data[..2] && data[..2][..1] == data[..1];
      assert InSomeIndex(data[..1], d) <==> d in data[0].1.index;
      assert InSomeIndex(data[..2], d) <==> InSomeIndex(data[..1], d) || d in data[1].1.index;
      assert InSomeIndex(data[..3], d) <==> InSomeIndex(data[..2], d) || d in data[2].1.index;
      assert InSomeIndex(data[..4], d) <==> InSomeIndex(data[..3], d) || d in data[3].1.index;
      assert InSomeIndex(data, d) <==> InSomeIndex(data[..4], d) || d in data[4].1.index;
    }
  }

  /** Entry i of the data dict, aligned on the union of dates, gives the column of field k. */
  lemma LegacyColumnFollows(s: Statements, shares: int, i: nat, k: Metric)
    requires ValidStatements(s) && HasRequiredRows(s) && HasNetWorthRows(s) && i < 5 && InLegacyFrame(k)
    requires LegacyData(s, shares)[i].0 == ColumnOf(k)
    requires forall d :: LegacyExpected(s, shares, k)(d) == At(LegacyData(s, shares)[i].1, d)
    ensures Follows(DataFrame(LegacyData(s, shares)), ColumnOf(k), LegacyExpected(s, shares, k))
  {
    var data := LegacyData(s, shares);
    AlignFollows(DataFrame(data), ColumnOf(k), data[i].1, LegacyExpected(s, shares, k));
  }

  /** The broadcast entry holds ShareCountOn on every date. */
  lemma BroadcastEntry(s: Statements, shares: int)
    requires ValidStatements(s) && HasRequiredRows(s) && HasNetWorthRows(s)
    ensures LegacyData(s, shares)[4].0 == ColumnOf(Shares)
    ensures forall d :: LegacyExpected(s, shares, Shares)(d) == At(LegacyData(s, shares)[4].1, d)
  {
    var b := LegacyData(s, shares)[4].1;
    forall d
      ensures At(b, d) == ShareCountOn(s.income, shares, d)
    {
      if d in s.income.dates {
        var j :| 0 <= j < |s.income.dates| && s.income.dates[j] == d;
      }
    }
  }

  /** The frame of the data dict follows the statements and the broadcast count. */
  lemma LegacyDataFollows(s: Statements, shares: int)
    requires ValidStatements(s) && HasRequiredRows(s) && HasNetWorthRows(s)
    ensures LegacyUpTo(DataFrame(LegacyData(s, shares)), s, shares, 0)
  {
    LegacyColumnFollows(s, shares, 0, Revenue);
    LegacyColumnFollows(s, shares, 1, OperatingIncome);
    LegacyColumnFollows(s, shares, 2, NetIncome);
    LegacyColumnFollows(s, shares, 3, OperatingCashFlow);
    BroadcastEntry(s, shares);
    LegacyColumnFollows(s, shares, 4, Shares);
  }

  /** Line 68: the EPS column follows net income over the broadcast count. */
  lemma LegacyEpsStep(df: Frame, s: Statements, shares: int)
    requires ValidStatements(s) && HasRequiredRows(s) && HasNetWorthRows(s)
    requires ValidFrame(df) && LegacyUpTo(df, s, shares, 0)
    ensures KEY_NET_INCOME in df.columns && KEY_SHARES in df.columns
    ensures LegacyUpTo(WithColumn(df, KEY_EPS, DivColumns(df.columns[KEY_NET_INCOME], df.columns[KEY_SHARES])), s, shares, 1)
  {
    assert LegacyStep(NetIncome) <= 0 && LegacyStep(Shares) <= 0;
    DivColumnsFollows(df, KEY_NET_INCOME, LegacyExpected(s, shares, NetIncome), KEY_SHARES,
                      LegacyExpected(s, shares, Shares), KEY_EPS, LegacyExpected(s, shares, Eps));
    LegacyAddColumn(df, s, shares, 0, Eps, DivColumns(df.columns[KEY_NET_INCOME], df.columns[KEY_SHARES]));
  }

  /** The assets-minus-liabilities Series of lines 71-75. */
  function NetWorth(s: Statements): (r: Series)
    requires ValidStatements(s) && HasNetWorthRows(s)
    ensures ValidSeries(r)
    ensures forall d :: At(r, d) == Sub(RowOn(s.balance, YF_TOTAL_ASSETS, d), RowOn(s.balance, YF_TOTAL_LIABILITIES, d))
  {
    SubSeries(Loc(s.balance, YF_TOTAL_ASSETS).value, Loc(s.balance, YF_TOTAL_LIABILITIES).value)
  }

  /** Line 75: the BPS column follows net worth over the broadcast count. */
  lemma LegacyBpsStep(df: Frame, s: Statements, shares: int)
    requires ValidStatements(s) && HasRequiredRows(s) && HasNetWorthRows(s)
    requires ValidFrame(df) && LegacyUpTo(df, s, shares, 1)
    ensures KEY_SHARES in df.columns
    ensures LegacyUpTo(WithColumn(df, KEY_BPS, DivByColumn(NetWorth(s), df, KEY_SHARES)), s, shares, 2)
  {
    assert LegacyStep(Shares) <= 1;
    DivByColumnFollows(df, NetWorth(s), KEY_SHARES, LegacyExpected(s, shares, Shares), KEY_BPS,
                       LegacyExpected(s, shares, Bps));
    LegacyAddColumn(df, s, shares, 1, Bps, DivByColumn(NetWorth(s), df, KEY_SHARES));
  }

  /** The frame of lines 65-75, built as the method builds it. */
  function LegacyFrameOf(s: Statements, shares: int): (df: Frame)
    requires ValidStatements(s) && HasRequiredRows(s) && HasNetWorthRows(s)
    ensures ValidFrame(df)
  {
    var data := LegacyData(s, shares);
    assert data[2].0 == KEY_NET_INCOME && data[4].0 == KEY_SHARES;
    var df := DataFrame(data);
    var df := WithColumn(df, KEY_EPS, DivColumns(df.columns[KEY_NET_INCOME], df.columns[KEY_SHARES]));
    WithColumn(df, KEY_BPS, DivByColumn(NetWorth(s), df, KEY_SHARES))
  }

  /** The margin and cash-flow-per-share columns are never set. */
  lemma LegacyLacksMetrics(s: Statements, shares: int)
    requires ValidStatements(s) && HasRequiredRows(s) && HasNetWorthRows(s)
    ensures KEY_OPERATING_MARGIN !in LegacyFrameOf(s, shares).columns
    ensures KEY_OPERATING_CASH_FLOW_PER_SHARE !in LegacyFrameOf(s, shares).columns
  {
    var data := LegacyData(s, shares);
    NotInNames(data, KEY_OPERATING_MARGIN);
    NotInNames(data, KEY_OPERATING_CASH_FLOW_PER_SHARE);
  }

  /** The frame of lines 65-75 satisfies LegacyFrame. */
  lemma LegacyFrameOfDescribes(s: Statements, shares: int)
    requires ValidStatements(s) && HasRequiredRows(s) && HasNetWorthRows(s)
    ensures LegacyFrame(LegacyFrameOf(s, shares), s, shares)
  {
    var data := LegacyData(s, shares);
    assert data[2].0 == KEY_NET_INCOME && data[4].0 == KEY_SHARES;
    var df0 := DataFrame(data);
    LegacyIndex(s, shares);
    LegacyDataFollows(s, shares);
    LegacyEpsStep(df0, s, shares);
    var df1 := WithColumn(df0, KEY_EPS, DivColumns(df0.columns[KEY_NET_INCOME], df0.columns[KEY_SHARES]));
    LegacyBpsStep(df1, s, shares);
    LegacyLacksMetrics(s, shares);
  }

  /**
   * get_financial_data: None when a statement is empty, the share count is
   * falsy, a required row is missing (including the revenue row, whose
   * absence raises at line 50) or a net-worth row is missing; otherwise the
   * frame described by LegacyFrame.
   */
  method GetFinancialData(t: Ticker, period: string) returns (r: Option<Frame>)
    requires ValidTicker(t)
    ensures r.Some? <==> Produces(SelectStatements(t, period), t.sharesOutstanding)
    ensures r.Some? ==> LegacyFrame(r.value, SelectStatements(t, period), t.sharesOutstanding.value)
  {
    var s := SelectStatements(t, period);
    if IsEmpty(s.income) || IsEmpty(s.balance) || IsEmpty(s.cash) {
      return None;
    }
    var revenue := Loc(s.income, YF_REVENUE);
    var operatingIncome := Loc(s.income, YF_OPERATING_INCOME);
    var netIncome := Loc(s.income, YF_NET_INCOME);
    var operatingCashFlow := Loc(s.cash, YF_OPERATING_CASH_FLOW);

    var shares := t.sharesOutstanding;
    if !Truthy(shares) {
      return None;
    }
    if revenue.None? {
      return None;
    }
    var count := Broadcast(shares.value, revenue.value.index);
    if operatingIncome.None? || netIncome.None? || operatingCashFlow.None? {
      return None;
    }
    var data := [(KEY_REVENUE, revenue.value), (KEY_OPERATING_INCOME, operatingIncome.value),
                 (KEY_NET_INCOME, netIncome.value), (KEY_OPERATING_CASH_FLOW, operatingCashFlow.value),
                 (KEY_SHARES, count)];
    assert data == LegacyData(s, shares.value);

    var df := DataFrame(data);
    assert data[2].0 == KEY_NET_INCOME && data[4].0 == KEY_SHARES;
    df := WithColumn(df, KEY_EPS, DivColumns(df.columns[KEY_NET_INCOME], df.columns[KEY_SHARES]));

    var assets := Loc(s.balance, YF_TOTAL_ASSETS);
    var liabilities := Loc(s.balance, YF_TOTAL_LIABILITIES);
    if assets.Some? && liabilities.Some? {
      df := WithColumn(df, KEY_BPS, DivByColumn(SubSeries(assets.value, liabilities.value), df, KEY_SHARES));
    } else {
      return None;
    }
    assert df == LegacyFrameOf(s, shares.value);
    LegacyFrameOfDescribes(s, shares.value);
    return Some(df);
  }

  /** get_dividends: None for an empty series or when reading it raises, the events otherwise. */
  function GetDividends(t: Ticker): (r: Option<seq<Dividend>>)
    ensures r.Some? <==> t.dividends.Some? && t.dividends.value != []
    ensures r.Some? ==> r.value == t.dividends.value
  {
    if t.dividends.None? || t.dividends.value == [] then None else t.dividends
  }
}
