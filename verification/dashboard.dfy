/** The pure logic of the dashboard component: quarter options and the default
    selection, per-quarter chart items, the view decision, the chart-type dispatch and
    the per-card chart-type state. React hooks become explicit inputs and outputs. */
module Dashboard {
  import opened Optional
  import opened Sequences
  import opened LexOrder
  import opened FrontendTypes
  import opened DashboardSlice

  function CustomerTypeQuarter(c: CustomerTypeData): string { c.closedFiscalQuarter }
  function AccountIndustryQuarter(a: AccountIndustryData): string { a.closedFiscalQuarter }
  function TeamQuarter(t: TeamData): string { t.closedFiscalQuarter }
  function ACVRangeQuarter(a: ACVRangeData): string { a.closedFiscalQuarter }

  /** The quarters the customer types mention, with repetitions. */
  function CustomerTypeQuarters(customerTypes: seq<CustomerTypeData>): seq<string>
  {
    Map(customerTypes, CustomerTypeQuarter)
  }

  /** The quarter selector's options: the distinct customer-type quarters, sorted and
      then reversed, so latest first and each once. */
  function QuarterOptions(customerTypes: seq<CustomerTypeData>): (r: seq<string>)
    ensures StrictlyDescending(r)
    ensures forall q :: q in r <==> q in CustomerTypeQuarters(customerTypes)
  {
    var sorted := SortAscending(Distinct(CustomerTypeQuarters(customerTypes)));
    SortedOptionsStrict(customerTypes);
    ReverseDescending(sorted);
    Reverse(sorted)
  }

  lemma SortedOptionsStrict(customerTypes: seq<CustomerTypeData>)
    ensures var quarters := CustomerTypeQuarters(customerTypes);
      var sorted := SortAscending(Distinct(quarters));
      && StrictlyAscending(sorted)
      && forall q :: q in sorted <==> q in quarters
  {
    var quarters := CustomerTypeQuarters(customerTypes);
    var distinct := Distinct(quarters);
    var sorted := SortAscending(distinct);
    NoDuplicatesPermutation(distinct, sorted);
    SortedDistinctIsStrict(sorted);
    forall q
      ensures q in sorted <==> q in quarters
    {
      assert q in sorted <==> q in multiset(distinct);
    }
  }

  lemma ReverseDescending(s: seq<string>)
    requires StrictlyAscending(s)
    ensures StrictlyDescending(Reverse(s))
    ensures forall q :: q in Reverse(s) <==> q in s
  {
  }

  /** The effect run when `data` changes: with customer types present, select the first
      option, i.e. the latest quarter; otherwise keep the current selection. */
  function SelectLatestQuarter(data: Option<DashboardData>, selected: string): (r: string)
    ensures data.None? || |data.value.customerTypes| == 0 ==> r == selected
    ensures data.Some? && |data.value.customerTypes| > 0 ==>
      && r in CustomerTypeQuarters(data.value.customerTypes)
      && forall q :: q in CustomerTypeQuarters(data.value.customerTypes) && q != r ==> Less(q, r)
  {
    if data.Some? && |data.value.customerTypes| > 0 then
      var options := QuarterOptions(data.value.customerTypes);
      assert CustomerTypeQuarters(data.value.customerTypes)[0] in options;
      assert forall q :: q in options && q != options[0] ==> Less(q, options[0]);
      // `options[0] || ""` falls back only on an empty list, which the guard rules out.
      options[0]
    else
      selected
  }

  /** `filterByQuarter`: the items of exactly the selected quarter, in order. Unlike the
      backend filter, an empty selection is compared like any other quarter. */
  function FilterByQuarter<T(==)>(items: seq<T>, quarterOf: T -> string, selectedQuarter: string): (r: seq<T>)
    ensures IsSliceByKey(r, items, quarterOf, selectedQuarter)
  {
    FilterByKeyIsSlice(items, quarterOf, selectedQuarter);
    FilterByKey(items, quarterOf, selectedQuarter)
  }

  function CustomerTypeItem(c: CustomerTypeData): ChartDataItem { ChartDataItem(c.custType, c.count) }
  function AccountIndustryItem(a: AccountIndustryData): ChartDataItem { ChartDataItem(a.acctIndustry, a.count) }
  function TeamItem(t: TeamData): ChartDataItem { ChartDataItem(t.team, t.count) }
  function ACVRangeItem(a: ACVRangeData): ChartDataItem { ChartDataItem(a.acvRange, a.count) }

  function CustomerTypeChartItems(data: DashboardData, selectedQuarter: string): (r: seq<ChartDataItem>)
    ensures var rows := FilterByQuarter(data.customerTypes, CustomerTypeQuarter, selectedQuarter);
      && |r| == |rows|
      && forall i :: 0 <= i < |rows| ==> r[i].labelText == rows[i].custType && r[i].value == rows[i].count
  {
    Map(FilterByQuarter(data.customerTypes, CustomerTypeQuarter, selectedQuarter), CustomerTypeItem)
  }

  function IndustryChartItems(data: DashboardData, selectedQuarter: string): (r: seq<ChartDataItem>)
    ensures var rows := FilterByQuarter(data.accountIndustries, AccountIndustryQuarter, selectedQuarter);
      && |r| == |rows|
      && forall i :: 0 <= i < |rows| ==> r[i].labelText == rows[i].acctIndustry && r[i].value == rows[i].count
  {
    Map(FilterByQuarter(data.accountIndustries, AccountIndustryQuarter, selectedQuarter), AccountIndustryItem)
  }

  function TeamChartItems(data: DashboardData, selectedQuarter: string): (r: seq<ChartDataItem>)
    ensures var rows := FilterByQuarter(data.teams, TeamQuarter, selectedQuarter);
      && |r| == |rows|
      && forall i :: 0 <= i < |rows| ==> r[i].labelText == rows[i].team && r[i].value == rows[i].count
  {
    Map(FilterByQuarter(data.teams, TeamQuarter, selectedQuarter), TeamItem)
  }

  /** The ACV-range chart also plots `count`, not an ACV amount. */
  function AcvChartItems(data: DashboardData, selectedQuarter: string): (r: seq<ChartDataItem>)
    ensures var rows := FilterByQuarter(data.acvRanges, ACVRangeQuarter, selectedQuarter);
      && |r| == |rows|
      && forall i :: 0 <= i < |rows| ==> r[i].labelText == rows[i].acvRange && r[i].value == rows[i].count
  {
    Map(FilterByQuarter(data.acvRanges, ACVRangeQuarter, selectedQuarter), ACVRangeItem)
  }

  /** The three renderers, each given the items to draw. */
  datatype Chart =
    | BarChart(items: seq<ChartDataItem>)
    | LineChart(items: seq<ChartDataItem>)
    | DoughnutChart(items: seq<ChartDataItem>)

  /** `renderChart`: dispatch on the chart type name, falling back to a bar chart. */
  function RenderChart(chartType: string, items: seq<ChartDataItem>): (c: Chart)
    ensures c.items == items
    ensures c.LineChart? <==> chartType == LINE
    ensures c.DoughnutChart? <==> chartType == DOUGHNUT
    ensures c.BarChart? <==> chartType != LINE && chartType != DOUGHNUT
  {
    if chartType == BAR then BarChart(items)
    else if chartType == LINE then LineChart(items)
    else if chartType == DOUGHNUT then DoughnutChart(items)
    else BarChart(items)
  }

  /** The four cards of the dashboard. */
  datatype Card = CustomerTypesCard | AccountIndustriesCard | TeamDistributionCard | AcvRangesCard

  /** The chart type chosen for each card. */
  datatype ChartTypeMap = ChartTypeMap(
    customerTypes: string,
    accountIndustries: string,
    teamDistribution: string,
    acvRanges: string)

  const DefaultChartTypes: ChartTypeMap := ChartTypeMap(DOUGHNUT, BAR, DOUGHNUT, BAR)

  function ChartTypeOf(chartTypes: ChartTypeMap, card: Card): string
  {
    match card
    case CustomerTypesCard => chartTypes.customerTypes
    case AccountIndustriesCard => chartTypes.accountIndustries
    case TeamDistributionCard => chartTypes.teamDistribution
    case AcvRangesCard => chartTypes.acvRanges
  }

  /** A card's chart-type selector: `setChartTypes(prev => ({...prev, [card]: value}))`. */
  function SetChartType(chartTypes: ChartTypeMap, card: Card, value: string): (r: ChartTypeMap)
    ensures ChartTypeOf(r, card) == value
    ensures forall other :: other != card ==> ChartTypeOf(r, other) == ChartTypeOf(chartTypes, other)
  {
    match card
    case CustomerTypesCard => chartTypes.(customerTypes := value)
    case AccountIndustriesCard => chartTypes.(accountIndustries := value)
    case TeamDistributionCard => chartTypes.(teamDistribution := value)
    case AcvRangesCard => chartTypes.(acvRanges := value)
  }

  /** What the component shows. */
  datatype View =
    | Skeletons
    | ErrorMessage(message: string)
    | Blank
    | Charts(
        quarterOptions: seq<string>,
        selectedQuarter: string,
        customerTypes: Chart,
        accountIndustries: Chart,
        teamDistribution: Chart,
        acvRanges: Chart)

  /** The component's render: loading first, then a truthy error, then nothing without
      data or a selected quarter, otherwise the four charts of the selected quarter. */
  function Render(state: DashboardState, selectedQuarter: string, chartTypes: ChartTypeMap): (v: View)
    ensures v.Skeletons? <==> state.loading
    ensures v.ErrorMessage? <==> !state.loading && state.error.Some? && state.error.value != ""
    ensures v.ErrorMessage? ==> v.message == state.error.value
    ensures v.Blank? <==>
      !state.loading && (state.error.None? || state.error.value == "") && (state.data.None? || selectedQuarter == "")
    ensures v.Charts? ==>
      && v.selectedQuarter == selectedQuarter
      && v.quarterOptions == QuarterOptions(state.data.value.customerTypes)
      && v.customerTypes == RenderChart(chartTypes.customerTypes, CustomerTypeChartItems(state.data.value, selectedQuarter))
      && v.accountIndustries == RenderChart(chartTypes.accountIndustries, IndustryChartItems(state.data.value, selectedQuarter))
      && v.teamDistribution == RenderChart(chartTypes.teamDistribution, TeamChartItems(state.data.value, selectedQuarter))
      && v.acvRanges == RenderChart(chartTypes.acvRanges, AcvChartItems(state.data.value, selectedQuarter))
  {
    if state.loading then Skeletons
    else if state.error.Some? && state.error.value != "" then ErrorMessage(state.error.value)
    else if state.data.None? || selectedQuarter == "" then Blank
    else
      var data := state.data.value;
      Charts(
        QuarterOptions(data.customerTypes),
        selectedQuarter,
        RenderChart(chartTypes.customerTypes, CustomerTypeChartItems(data, selectedQuarter)),
        RenderChart(chartTypes.accountIndustries, IndustryChartItems(data, selectedQuarter)),
        RenderChart(chartTypes.teamDistribution, TeamChartItems(data, selectedQuarter)),
        RenderChart(chartTypes.acvRanges, AcvChartItems(data, selectedQuarter)))
  }
  /** After a successful fetch from the initial state, with the default chart types and
      the selection effect applied, the dashboard shows the four charts of the latest
      quarter: customer types and teams as doughnuts, industries and ACV ranges as bars. */
  lemma LoadedDashboardShowsLatestQuarter(payload: DashboardData)
    requires exists i :: 0 <= i < |payload.customerTypes| && payload.customerTypes[i].closedFiscalQuarter != ""
    ensures
      var state := Run(InitialState, [Pending, Fulfilled(payload)]);
      var selected := SelectLatestQuarter(state.data, "");
      var v := Render(state, selected, DefaultChartTypes);
      && selected in CustomerTypeQuarters(payload.customerTypes)
      && (forall q :: q in CustomerTypeQuarters(payload.customerTypes) ==> q == selected || Less(q, selected))
      && v == Charts(
           QuarterOptions(payload.customerTypes),
           selected,
           DoughnutChart(CustomerTypeChartItems(payload, selected)),
           BarChart(IndustryChartItems(payload, selected)),
           DoughnutChart(TeamChartItems(payload, selected)),
           BarChart(AcvChartItems(payload, selected)))
  {
  }

  /** A failed fetch replaces whatever was shown by its error message. */
  lemma RejectedShowsMessage(state: DashboardState, message: Option<string>, selectedQuarter: string, chartTypes: ChartTypeMap)
    ensures Render(Reduce(state, Rejected(message)), selectedQuarter, chartTypes) ==
      ErrorMessage(if message.Some? && message.value != "" then message.value else DefaultError)
  {
  }
}
