/** How the dashboard's own per-quarter charts relate to the series the backend serves
    for the same records and quarter: the same rows in the same order, and the same
    labels and values, except that the ACV-range chart plots counts where the backend
    series carries ACV amounts. */
module Consistency {
  import opened Optional
  import opened Sequences
  import BackendTypes
  import FrontendTypes
  import DataService
  import Dashboard

  /** The frontend view of a backend customer-type record (it has no `acv`). */
  function CustomerTypeView(c: BackendTypes.CustomerType): FrontendTypes.CustomerTypeData
  {
    FrontendTypes.CustomerTypeData(c.custType, c.count, c.closedFiscalQuarter)
  }

  function ACVRangeView(a: BackendTypes.ACVRange): FrontendTypes.ACVRangeData
  {
    FrontendTypes.ACVRangeData(a.acvRange, a.count, a.closedFiscalQuarter)
  }

  /** For a non-empty quarter, the customer-type chart the dashboard draws has exactly the
      labels and values of the backend's customer-type series. */
  lemma CustomerTypeChartsAgree(files: DataService.DataFiles, data: FrontendTypes.DashboardData, q: string)
    requires files.customerTypeFile.Some?
    requires data.customerTypes == Map(files.customerTypeFile.value, CustomerTypeView)
    requires q != ""
    ensures
      var items := Dashboard.CustomerTypeChartItems(data, q);
      var series := DataService.GetCustomerTypeChartData(files, Some(q)).value;
      && |items| == |series.labels|
      && forall i :: 0 <= i < |items| ==> items[i].labelText == series.labels[i] && items[i].value == series.values[i]
  {
    FilterByKeyMap(files.customerTypeFile.value, CustomerTypeView, DataService.CustomerTypeQuarter,
                   Dashboard.CustomerTypeQuarter, q);
  }

  /** For a non-empty quarter, the ACV-range chart the dashboard draws has the labels of
      the backend's ACV-range series, but plots each row's `count` where the series holds
      its `acv`. */
  lemma ACVRangeChartsDiffer(files: DataService.DataFiles, data: FrontendTypes.DashboardData, q: string)
    requires files.acvRangeFile.Some?
    requires data.acvRanges == Map(files.acvRangeFile.value, ACVRangeView)
    requires q != ""
    ensures
      var items := Dashboard.AcvChartItems(data, q);
      var rows := DataService.GetACVRanges(files, Some(q)).value;
      var series := DataService.GetACVRangeChartData(files, Some(q)).value;
      && |items| == |series.labels| == |rows|
      && forall i :: 0 <= i < |items| ==>
           && items[i].labelText == series.labels[i]
           && items[i].value == rows[i].count
           && series.values[i] == rows[i].acv
  {
    FilterByKeyMap(files.acvRangeFile.value, ACVRangeView, DataService.ACVRangeQuarter,
                   Dashboard.ACVRangeQuarter, q);
  }
}
