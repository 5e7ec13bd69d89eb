/**
 * The record types of src/utils/models.py: FinancialDataModel, built from
 * and turned back into the normalized dict, and ChartConfig.
 */
module Models {
  import opened Wrappers
  import opened Dates
  import opened Frames

  /** A list held under one key of a normalized dict: the dates, or one numeric column. */
  datatype Column = DateList(dates: seq<Date>) | ValueList(values: seq<Cell>)

  /** A Python dict from field name to list. */
  type Dict = map<string, Column>

  /** The `[]` a missing field defaults to. */
  const EmptyList: Column := ValueList([])

  const DATES: string := "dates"
  const REVENUE: string := "revenue"
  const OPERATING_INCOME: string := "operating_income"
  const NET_INCOME: string := "net_income"
  const OPERATING_CASH_FLOW: string := "operating_cash_flow"
  const SHARES: string := "shares"
  const EPS: string := "eps"
  const BPS: string := "bps"
  const OPERATING_MARGIN: string := "operating_margin"
  const OPERATING_CASH_FLOW_PER_SHARE: string := "operating_cash_flow_per_share"
  const DPS: string := "dps"

  /** The ten keys every to_dict result holds. */
  const BaseKeys: set<string> := {DATES, REVENUE, OPERATING_INCOME, NET_INCOME, OPERATING_CASH_FLOW,
                                  SHARES, EPS, BPS, OPERATING_MARGIN, OPERATING_CASH_FLOW_PER_SHARE}

  datatype FinancialDataModel = FinancialDataModel(
    dates: Column,
    revenue: Column,
    operatingIncome: Column,
    netIncome: Column,
    operatingCashFlow: Column,
    shares: Column,
    eps: Column,
    bps: Column,
    operatingMargin: Column,
    operatingCashFlowPerShare: Column,
    dps: Option<Column>)

  /** The field of m stored under a base key. */
  function Field(m: FinancialDataModel, key: string): Column
    requires key in BaseKeys
  {
    if key == DATES then m.dates
    else if key == REVENUE then m.revenue
    else if key == OPERATING_INCOME then m.operatingIncome
    else if key == NET_INCOME then m.netIncome
    else if key == OPERATING_CASH_FLOW then m.operatingCashFlow
    else if key == SHARES then m.shares
    else if key == EPS then m.eps
    else if key == BPS then m.bps
    else if key == OPERATING_MARGIN then m.operatingMargin
    else m.operatingCashFlowPerShare
  }

  /** `data.get(key, default)`. */
  function Get(d: Dict, key: string, default: Column): Column {
    if key in d then d[key] else default
  }

  /**
   * FinancialDataModel(data): each base field is read from its key, or is
   * the empty list when the key is absent; dps is None when absent; any
   * other key is ignored.
   */
  function FromDict(d: Dict): (m: FinancialDataModel)
    ensures forall key :: key in BaseKeys ==> Field(m, key) == (if key in d then d[key] else EmptyList)
    ensures m.dps.Some? <==> DPS in d
    ensures m.dps.Some? ==> m.dps.value == d[DPS]
  {
    FinancialDataModel(
      Get(d, DATES, EmptyList),
      Get(d, REVENUE, EmptyList),
      Get(d, OPERATING_INCOME, EmptyList),
      Get(d, NET_INCOME, EmptyList),
      Get(d, OPERATING_CASH_FLOW, EmptyList),
      Get(d, SHARES, EmptyList),
      Get(d, EPS, EmptyList),
      Get(d, BPS, EmptyList),
      Get(d, OPERATING_MARGIN, EmptyList),
      Get(d, OPERATING_CASH_FLOW_PER_SHARE, EmptyList),
      if DPS in d then Some(d[DPS]) else None)
  }

  /** to_dict(): the ten base keys always, and dps exactly when it is set. */
  function ToDict(m: FinancialDataModel): (d: Dict)
    ensures d.Keys == if m.dps.Some? then BaseKeys + {DPS} else BaseKeys
    ensures forall key :: key in BaseKeys ==> d[key] == Field(m, key)
    ensures m.dps.Some? ==> d[DPS] == m.dps.value
  {
    var keys := if m.dps.Some? then BaseKeys + {DPS} else BaseKeys;
    map key | key in keys :: if key in BaseKeys then Field(m, key) else m.dps.value
  }

  /** Rebuilding a model from its own dict gives the same model. */
  lemma FromDictToDict(m: FinancialDataModel)
    ensures FromDict(ToDict(m)) == m
  {
    var r := FromDict(ToDict(m));
    assert Field(r, DATES) == Field(m, DATES);
    assert Field(r, OPERATING_CASH_FLOW_PER_SHARE) == Field(m, OPERATING_CASH_FLOW_PER_SHARE);
  }

  /** A dict holding exactly the base keys, and possibly dps, survives the round trip. */
  lemma ToDictFromDict(d: Dict)
    requires d.Keys == BaseKeys || d.Keys == BaseKeys + {DPS}
    ensures ToDict(FromDict(d)) == d
  {
    var r := ToDict(FromDict(d));
    assert r.Keys == d.Keys;
    forall key | key in d
      ensures r[key] == d[key]
    {
    }
  }

  /** Keys other than the base keys and dps do not affect the model. */
  lemma UnknownKeysIgnored(d: Dict, key: string, c: Column)
    requires key !in BaseKeys && key != DPS
    ensures FromDict(d[key := c]) == FromDict(d)
  {
    var a, b := FromDict(d[key := c]), FromDict(d);
    forall k | k in BaseKeys
      ensures Field(a, k) == Field(b, k)
    {
    }
    assert Field(a, DATES) == Field(b, DATES);
    assert Field(a, OPERATING_CASH_FLOW_PER_SHARE) == Field(b, OPERATING_CASH_FLOW_PER_SHARE);
  }

  /** The settings of one chart: titles and named series for the two axes. */
  datatype ChartConfig = ChartConfig(
    title: string,
    y1Title: string,
    y2Title: Option<string>,
    primaryData: map<string, seq<Cell>>,
    secondaryData: Option<map<string, seq<Cell>>>)

  /** ChartConfig(title, y1_title, primary_data, y2_title=None, secondary_data=None). */
  function NewChartConfig(title: string, y1Title: string, primaryData: map<string, seq<Cell>>,
                          y2Title: Option<string> := None,
                          secondaryData: Option<map<string, seq<Cell>>> := None): (c: ChartConfig)
    ensures c.title == title && c.y1Title == y1Title && c.primaryData == primaryData
    ensures c.y2Title == y2Title && c.secondaryData == secondaryData
  {
    ChartConfig(title, y1Title, y2Title, primaryData, secondaryData)
  }

  /** The second axis is off unless its title and data are passed. */
  lemma ChartConfigDefaults(title: string, y1Title: string, primaryData: map<string, seq<Cell>>)
    ensures NewChartConfig(title, y1Title, primaryData).y2Title == None
    ensures NewChartConfig(title, y1Title, primaryData).secondaryData == None
  {
  }
}
