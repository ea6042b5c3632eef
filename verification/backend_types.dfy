/** Record shapes of the backend's four JSON collections and of the chart series it
    serves. Every JSON `number` is a `real`; a fiscal quarter is any string. */
module BackendTypes {
  import opened Optional

  /** `Total_Quantity?: number | null`: absent, explicitly null, or a number. */
  datatype Quantity = Absent | Null | Amount(amount: real)

  datatype CustomerType = CustomerType(
    custType: string,
    count: real,
    acv: real,
    closedFiscalQuarter: string)

  datatype AccountIndustry = AccountIndustry(
    acctIndustry: string,
    count: real,
    acv: real,
    closedFiscalQuarter: string,
    queryKey: Option<string>,
    totalQuantity: Quantity)

  datatype Team = Team(
    team: string,
    count: real,
    acv: real,
    closedFiscalQuarter: string)

  datatype ACVRange = ACVRange(
    acvRange: string,
    count: real,
    acv: real,
    closedFiscalQuarter: string)

  /** The four collections returned together by the "everything" endpoint. */
  datatype DashboardData = DashboardData(
    customerTypes: seq<CustomerType>,
    accountIndustries: seq<AccountIndustry>,
    teams: seq<Team>,
    acvRanges: seq<ACVRange>)

  /** A chart-ready series: positional labels and values, and their total. */
  datatype ChartData = ChartData(labels: seq<string>, values: seq<real>, total: real)
}
