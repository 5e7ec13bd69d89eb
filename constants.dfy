/** Literals shared by the pipeline (src/utils/constants.py). */
module Constants {
  const PERIOD_QUARTERLY: string := "quarterly"
  const PERIOD_ANNUAL: string := "annual"

  // Column names of the intermediate DataFrame.
  const KEY_REVENUE: string := "売上高"
  const KEY_OPERATING_INCOME: string := "営業利益"
  const KEY_NET_INCOME: string := "純利益"
  const KEY_OPERATING_CASH_FLOW: string := "営業キャッシュフロー"
  const KEY_SHARES: string := "発行済株式数"
  const KEY_EPS: string := "EPS"
  const KEY_BPS: string := "BPS"
  const KEY_OPERATING_MARGIN: string := "営業利益率"
  const KEY_OPERATING_CASH_FLOW_PER_SHARE: string := "1株あたり営業CF"

  // Row labels of the provider's statements.
  const YF_REVENUE: string := "Total Revenue"
  const YF_OPERATING_INCOME: string := "Operating Income"
  const YF_NET_INCOME: string := "Net Income"
  const YF_OPERATING_CASH_FLOW: string := "Operating Cash Flow"
  const YF_STOCKHOLDER_EQUITY: string := "Total Stockholder Equity"
  const YF_TOTAL_ASSETS: string := "Total Assets"
  const YF_TOTAL_LIABILITIES: string := "Total Liabilities Net Minority Interest"
}
