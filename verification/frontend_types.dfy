/** Record shapes the frontend receives and the chart items it draws. Every JSON
    `number` is a `real`; a fiscal quarter is any string. */
module FrontendTypes {

  datatype CustomerTypeData = CustomerTypeData(custType: string, count: real, closedFiscalQuarter: string)

  datatype AccountIndustryData = AccountIndustryData(acctIndustry: string, count: real, closedFiscalQuarter: string)

  datatype TeamData = TeamData(team: string, count: real, closedFiscalQuarter: string)

  datatype ACVRangeData = ACVRangeData(acvRange: string, count: real, closedFiscalQuarter: string)

  /** The four collections the dashboard is fed with. */
  datatype DashboardData = DashboardData(
    customerTypes: seq<CustomerTypeData>,
    accountIndustries: seq<AccountIndustryData>,
    teams: seq<TeamData>,
    acvRanges: seq<ACVRangeData>)

  /** One bar, point or slice of a chart (`{label, value}`; `label` is a Dafny keyword). */
  datatype ChartDataItem = ChartDataItem(labelText: string, value: real)

  /** The chart type names. The model types a chart type as a plain string, so the
      renderer's fallback for any other name is covered as well, although the selector
      only ever offers these three. */
  const BAR: string := "bar"
  const LINE: string := "line"
  const DOUGHNUT: string := "doughnut"
}
