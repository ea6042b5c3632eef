/** The backend's data service: quarter filters over the four collections, projection
    into chart series, totals, quarter-over-quarter growth and the combined responses.
    The data directory is an input value; reading a file either yields its records or
    fails with the error the service throws. */
module DataService {
  import opened Optional
  import opened Sequences
  import opened BackendTypes

  /** The JSON files of the data directory; `None` is a file that cannot be read or parsed. */
  datatype DataFiles = DataFiles(
    customerTypeFile: Option<seq<CustomerType>>,
    accountIndustryFile: Option<seq<AccountIndustry>>,
    teamFile: Option<seq<Team>>,
    acvRangeFile: Option<seq<ACVRange>>)

  /** All four files can be read. */
  predicate AllReadable(files: DataFiles)
  {
    && files.customerTypeFile.Some?
    && files.accountIndustryFile.Some?
    && files.teamFile.Some?
    && files.acvRangeFile.Some?
  }

  /** Reading one JSON file: its records, or the error naming the file. */
  function ReadJsonFile<T>(file: Option<seq<T>>, filename: string): Result<seq<T>>
  {
    match file
    case Some(records) => Ok(records)
    case None => Err("Failed to read " + filename)
  }

  // Field accessors, named so that the fixed label/value/quarter bindings are explicit.
  function CustomerTypeQuarter(c: CustomerType): string { c.closedFiscalQuarter }
  function CustomerTypeLabel(c: CustomerType): string { c.custType }
  function CustomerTypeCount(c: CustomerType): real { c.count }
  function AccountIndustryQuarter(a: AccountIndustry): string { a.closedFiscalQuarter }
  function AccountIndustryLabel(a: AccountIndustry): string { a.acctIndustry }
  function AccountIndustryCount(a: AccountIndustry): real { a.count }
  function TeamQuarter(t: Team): string { t.closedFiscalQuarter }
  function TeamLabel(t: Team): string { t.team }
  function TeamCount(t: Team): real { t.count }
  function ACVRangeQuarter(a: ACVRange): string { a.closedFiscalQuarter }
  function ACVRangeLabel(a: ACVRange): string { a.acvRange }
  function ACVRangeAcv(a: ACVRange): real { a.acv }
  function ACVRangeCount(a: ACVRange): real { a.count }

  /** The accessors filter only when the quarter is truthy: present and not empty. */
  predicate FilterRequested(quarter: Option<string>)
  {
    quarter.Some? && quarter.value != ""
  }

  /** `quarter ? data.filter(item => item.closed_fiscal_quarter === quarter) : data`. */
  function FilterByQuarter<T(==)>(data: seq<T>, quarterOf: T -> string, quarter: Option<string>): (r: seq<T>)
    ensures !FilterRequested(quarter) ==> r == data
    ensures FilterRequested(quarter) ==> IsSliceByKey(r, data, quarterOf, quarter.value)
  {
    if FilterRequested(quarter) then
      FilterByKeyIsSlice(data, quarterOf, quarter.value);
      FilterByKey(data, quarterOf, quarter.value)
    else
      data
  }

  function GetCustomerTypes(files: DataFiles, quarter: Option<string>): (r: Result<seq<CustomerType>>)
    ensures r.Ok? <==> files.customerTypeFile.Some?
    ensures r.Err? ==> r.message == "Failed to read customer-type.json"
    ensures r.Ok? && !FilterRequested(quarter) ==> r.value == files.customerTypeFile.value
    ensures r.Ok? && FilterRequested(quarter) ==>
      IsSliceByKey(r.value, files.customerTypeFile.value, CustomerTypeQuarter, quarter.value)
  {
    var data :- ReadJsonFile(files.customerTypeFile, "customer-type.json");
    Ok(FilterByQuarter(data, CustomerTypeQuarter, quarter))
  }

  function GetAccountIndustries(files: DataFiles, quarter: Option<string>): (r: Result<seq<AccountIndustry>>)
    ensures r.Ok? <==> files.accountIndustryFile.Some?
    ensures r.Err? ==> r.message == "Failed to read account-industry.json"
    ensures r.Ok? && !FilterRequested(quarter) ==> r.value == files.accountIndustryFile.value
    ensures r.Ok? && FilterRequested(quarter) ==>
      IsSliceByKey(r.value, files.accountIndustryFile.value, AccountIndustryQuarter, quarter.value)
  {
    var data :- ReadJsonFile(files.accountIndustryFile, "account-industry.json");
    Ok(FilterByQuarter(data, AccountIndustryQuarter, quarter))
  }

  function GetTeams(files: DataFiles, quarter: Option<string>): (r: Result<seq<Team>>)
    ensures r.Ok? <==> files.teamFile.Some?
    ensures r.Err? ==> r.message == "Failed to read team.json"
    ensures r.Ok? && !FilterRequested(quarter) ==> r.value == files.teamFile.value
    ensures r.Ok? && FilterRequested(quarter) ==>
      IsSliceByKey(r.value, files.teamFile.value, TeamQuarter, quarter.value)
  {
    var data :- ReadJsonFile(files.teamFile, "team.json");
    Ok(FilterByQuarter(data, TeamQuarter, quarter))
  }

  function GetACVRanges(files: DataFiles, quarter: Option<string>): (r: Result<seq<ACVRange>>)
    ensures r.Ok? <==> files.acvRangeFile.Some?
    ensures r.Err? ==> r.message == "Failed to read acv-range.json"
    ensures r.Ok? && !FilterRequested(quarter) ==> r.value == files.acvRangeFile.value
    ensures r.Ok? && FilterRequested(quarter) ==>
      IsSliceByKey(r.value, files.acvRangeFile.value, ACVRangeQuarter, quarter.value)
  {
    var data :- ReadJsonFile(files.acvRangeFile, "acv-range.json");
    Ok(FilterByQuarter(data, ACVRangeQuarter, quarter))
  }

  /** A quarter no record of a readable file carries gives an empty result, not an
      error, for each of the four accessors. */
  lemma UnknownQuarterYieldsNothing(files: DataFiles, quarter: string)
    requires quarter != ""
    ensures files.customerTypeFile.Some?
         && (forall c :: c in files.customerTypeFile.value ==> c.closedFiscalQuarter != quarter)
         ==> GetCustomerTypes(files, Some(quarter)) == Ok([])
    ensures files.accountIndustryFile.Some?
         && (forall a :: a in files.accountIndustryFile.value ==> a.closedFiscalQuarter != quarter)
         ==> GetAccountIndustries(files, Some(quarter)) == Ok([])
    ensures files.teamFile.Some?
         && (forall t :: t in files.teamFile.value ==> t.closedFiscalQuarter != quarter)
         ==> GetTeams(files, Some(quarter)) == Ok([])
    ensures files.acvRangeFile.Some?
         && (forall a :: a in files.acvRangeFile.value ==> a.closedFiscalQuarter != quarter)
         ==> GetACVRanges(files, Some(quarter)) == Ok([])
  {
    if files.customerTypeFile.Some? && forall c :: c in files.customerTypeFile.value ==> c.closedFiscalQuarter != quarter {
      UnknownQuarterNoCustomerTypes(files, quarter);
    }
    if files.accountIndustryFile.Some? && forall a :: a in files.accountIndustryFile.value ==> a.closedFiscalQuarter != quarter {
      UnknownQuarterNoAccountIndustries(files, quarter);
    }
    if files.teamFile.Some? && forall t :: t in files.teamFile.value ==> t.closedFiscalQuarter != quarter {
      UnknownQuarterNoTeams(files, quarter);
    }
    if files.acvRangeFile.Some? && forall a :: a in files.acvRangeFile.value ==> a.closedFiscalQuarter != quarter {
      UnknownQuarterNoACVRanges(files, quarter);
    }
  }

  lemma UnknownQuarterNoCustomerTypes(files: DataFiles, quarter: string)
    requires quarter != "" && files.customerTypeFile.Some?
    requires forall c :: c in files.customerTypeFile.value ==> c.closedFiscalQuarter != quarter
    ensures GetCustomerTypes(files, Some(quarter)) == Ok([])
  {
    FilterByKeyKeepsNone(files.customerTypeFile.value, CustomerTypeQuarter, quarter);
  }

  lemma UnknownQuarterNoAccountIndustries(files: DataFiles, quarter: string)
    requires quarter != "" && files.accountIndustryFile.Some?
    requires forall a :: a in files.accountIndustryFile.value ==> a.closedFiscalQuarter != quarter
    ensures GetAccountIndustries(files, Some(quarter)) == Ok([])
  {
    FilterByKeyKeepsNone(files.accountIndustryFile.value, AccountIndustryQuarter, quarter);
  }

  lemma UnknownQuarterNoTeams(files: DataFiles, quarter: string)
    requires quarter != "" && files.teamFile.Some?
    requires forall t :: t in files.teamFile.value ==> t.closedFiscalQuarter != quarter
    ensures GetTeams(files, Some(quarter)) == Ok([])
  {
    FilterByKeyKeepsNone(files.teamFile.value, TeamQuarter, quarter);
  }

  lemma UnknownQuarterNoACVRanges(files: DataFiles, quarter: string)
    requires quarter != "" && files.acvRangeFile.Some?
    requires forall a :: a in files.acvRangeFile.value ==> a.closedFiscalQuarter != quarter
    ensures GetACVRanges(files, Some(quarter)) == Ok([])
  {
    FilterByKeyKeepsNone(files.acvRangeFile.value, ACVRangeQuarter, quarter);
  }

  /** `transformForChart`: labels and values taken positionally from the records, and
      their total. */
  function TransformForChart<T>(data: seq<T>, labelOf: T -> string, valueOf: T -> real): (r: ChartData)
    ensures |r.labels| == |data| && |r.values| == |data|
    ensures forall i :: 0 <= i < |data| ==> r.labels[i] == labelOf(data[i]) && r.values[i] == valueOf(data[i])
    ensures r.total == Sum(r.values)
  {
    SumByIsSumOfMap(data, valueOf);
    ChartData(Map(data, labelOf), Map(data, valueOf), SumBy(data, valueOf))
  }

  function GetCustomerTypeChartData(files: DataFiles, quarter: Option<string>): (r: Result<ChartData>)
    ensures r.Ok? <==> files.customerTypeFile.Some?
    ensures r.Err? ==> r.message == "Failed to read customer-type.json"
    ensures r.Ok? ==>
      var data := GetCustomerTypes(files, quarter).value;
      && |r.value.labels| == |data| && |r.value.values| == |data|
      && (forall i :: 0 <= i < |data| ==> r.value.labels[i] == data[i].custType && r.value.values[i] == data[i].count)
      && r.value.total == Sum(r.value.values)
  {
    var data :- GetCustomerTypes(files, quarter);
    Ok(TransformForChart(data, CustomerTypeLabel, CustomerTypeCount))
  }

  function GetAccountIndustryChartData(files: DataFiles, quarter: Option<string>): (r: Result<ChartData>)
    ensures r.Ok? <==> files.accountIndustryFile.Some?
    ensures r.Err? ==> r.message == "Failed to read account-industry.json"
    ensures r.Ok? ==>
      var data := GetAccountIndustries(files, quarter).value;
      && |r.value.labels| == |data| && |r.value.values| == |data|
      && (forall i :: 0 <= i < |data| ==> r.value.labels[i] == data[i].acctIndustry && r.value.values[i] == data[i].count)
      && r.value.total == Sum(r.value.values)
  {
    var data :- GetAccountIndustries(files, quarter);
    Ok(TransformForChart(data, AccountIndustryLabel, AccountIndustryCount))
  }

  function GetTeamChartData(files: DataFiles, quarter: Option<string>): (r: Result<ChartData>)
    ensures r.Ok? <==> files.teamFile.Some?
    ensures r.Err? ==> r.message == "Failed to read team.json"
    ensures r.Ok? ==>
      var data := GetTeams(files, quarter).value;
      && |r.value.labels| == |data| && |r.value.values| == |data|
      && (forall i :: 0 <= i < |data| ==> r.value.labels[i] == data[i].team && r.value.values[i] == data[i].count)
      && r.value.total == Sum(r.value.values)
  {
    var data :- GetTeams(files, quarter);
    Ok(TransformForChart(data, TeamLabel, TeamCount))
  }

  function GetACVRangeChartData(files: DataFiles, quarter: Option<string>): (r: Result<ChartData>)
    ensures r.Ok? <==> files.acvRangeFile.Some?
    ensures r.Err? ==> r.message == "Failed to read acv-range.json"
    ensures r.Ok? ==>
      var data := GetACVRanges(files, quarter).value;
      && |r.value.labels| == |data| && |r.value.values| == |data|
      && (forall i :: 0 <= i < |data| ==> r.value.labels[i] == data[i].acvRange && r.value.values[i] == data[i].acv)
      && r.value.total == Sum(r.value.values)
  {
    var data :- GetACVRanges(files, quarter);
    Ok(TransformForChart(data, ACVRangeLabel, ACVRangeAcv))
  }

  /** The four chart series of one response. */
  datatype AllChartData = AllChartData(
    customerTypes: ChartData,
    accountIndustries: ChartData,
    teams: ChartData,
    acvRanges: ChartData)

  /** `getAllChartData`: the four series for the same quarter, built in order; the first
      file that cannot be read decides the error. */
  function GetAllChartData(files: DataFiles, quarter: Option<string>): (r: Result<AllChartData>)
    ensures r.Ok? <==> AllReadable(files)
    ensures r.Ok? ==>
      && r.value.customerTypes == GetCustomerTypeChartData(files, quarter).value
      && r.value.accountIndustries == GetAccountIndustryChartData(files, quarter).value
      && r.value.teams == GetTeamChartData(files, quarter).value
      && r.value.acvRanges == GetACVRangeChartData(files, quarter).value
    ensures files.customerTypeFile.None? ==> r == Err("Failed to read customer-type.json")
    ensures files.customerTypeFile.Some? && files.accountIndustryFile.None? ==>
      r == Err("Failed to read account-industry.json")
    ensures files.customerTypeFile.Some? && files.accountIndustryFile.Some? && files.teamFile.None? ==>
      r == Err("Failed to read team.json")
    ensures (files.customerTypeFile.Some? && files.accountIndustryFile.Some? && files.teamFile.Some?
             && files.acvRangeFile.None?) ==> r == Err("Failed to read acv-range.json")
  {
    var customerTypes :- GetCustomerTypeChartData(files, quarter);
    var accountIndustries :- GetAccountIndustryChartData(files, quarter);
    var teams :- GetTeamChartData(files, quarter);
    var acvRanges :- GetACVRangeChartData(files, quarter);
    Ok(AllChartData(customerTypes, accountIndustries, teams, acvRanges))
  }

  /** `getDashboardData`: the four raw collections, unfiltered; any unreadable file makes
      the whole call fail with one generic message. */
  function GetDashboardData(files: DataFiles): (r: Result<DashboardData>)
    ensures r.Ok? <==> AllReadable(files)
    ensures r.Err? ==> r.message == "Failed to get dashboard data"
    ensures r.Ok? ==>
      && r.value.customerTypes == files.customerTypeFile.value
      && r.value.accountIndustries == files.accountIndustryFile.value
      && r.value.teams == files.teamFile.value
      && r.value.acvRanges == files.acvRangeFile.value
  {
    if AllReadable(files) then
      Ok(DashboardData(files.customerTypeFile.value, files.accountIndustryFile.value,
                       files.teamFile.value, files.acvRangeFile.value))
    else
      Err("Failed to get dashboard data")
  }

  /** The combined response holds exactly what the per-category accessors return when
      called without a quarter. */
  lemma DashboardDataIsUnfilteredAccessors(files: DataFiles)
    requires AllReadable(files)
    ensures GetDashboardData(files) == Ok(DashboardData(
      GetCustomerTypes(files, None).value, GetAccountIndustries(files, None).value,
      GetTeams(files, None).value, GetACVRanges(files, None).value))
  {
  }

  /** `getTotalACV`: the sum of `acv` over the ACV-range records of the quarter. */
  function GetTotalACV(files: DataFiles, quarter: string): (r: Result<real>)
    ensures r.Ok? <==> files.acvRangeFile.Some?
    ensures r.Err? ==> r.message == "Failed to read acv-range.json"
    ensures r.Ok? && quarter != "" ==>
      r.value == SumByKey(files.acvRangeFile.value, ACVRangeQuarter, quarter, ACVRangeAcv)
    ensures r.Ok? && quarter == "" ==> r.value == Sum(Map(files.acvRangeFile.value, ACVRangeAcv))
  {
    var data :- GetACVRanges(files, Some(quarter));
    FilterByKeySum(files.acvRangeFile.value, ACVRangeQuarter, quarter, ACVRangeAcv);
    SumByIsSumOfMap(data, ACVRangeAcv);
    Ok(SumBy(data, ACVRangeAcv))
  }

  /** `getTotalCount`: the sum of `count` over the ACV-range records of the quarter. */
  function GetTotalCount(files: DataFiles, quarter: string): (r: Result<real>)
    ensures r.Ok? <==> files.acvRangeFile.Some?
    ensures r.Err? ==> r.message == "Failed to read acv-range.json"
    ensures r.Ok? && quarter != "" ==>
      r.value == SumByKey(files.acvRangeFile.value, ACVRangeQuarter, quarter, ACVRangeCount)
    ensures r.Ok? && quarter == "" ==> r.value == Sum(Map(files.acvRangeFile.value, ACVRangeCount))
  {
    var data :- GetACVRanges(files, Some(quarter));
    FilterByKeySum(files.acvRangeFile.value, ACVRangeQuarter, quarter, ACVRangeCount);
    SumByIsSumOfMap(data, ACVRangeCount);
    Ok(SumBy(data, ACVRangeCount))
  }
  /** The ACV total of a quarter is the total of that quarter's ACV-range chart. */
  lemma TotalACVIsChartTotal(files: DataFiles, quarter: string)
    requires files.acvRangeFile.Some?
    ensures GetTotalACV(files, quarter).value == GetACVRangeChartData(files, Some(quarter)).value.total
  {
  }

  /** The fiscal quarters the growth computation knows, oldest first. */
  const KnownQuarters: seq<string> := ["2023-Q3", "2023-Q4", "2024-Q1", "2024-Q2"]

  /** `xs.indexOf(x)`: the first position of `x`, or -1 when it does not occur. */
  function IndexOf(xs: seq<string>, x: string): (i: int)
    ensures -1 <= i < |xs|
    ensures i == -1 <==> x !in xs
    ensures 0 <= i ==> xs[i] == x && x !in xs[..i]
  {
    if |xs| == 0 then -1
    else if xs[0] == x then 0
    else
      var j := IndexOf(xs[1..], x);
      if j == -1 then -1
      else
        assert xs[..j + 1] == [xs[0]] + xs[1..][..j];
        j + 1
  }

  /** The field growth is measured on. */
  datatype Metric = Acv | Count

  function MetricField(metric: Metric): ACVRange -> real
  {
    match metric
    case Acv => ACVRangeAcv
    case Count => ACVRangeCount
  }

  /** `getQuarterOverQuarterGrowth`: percentage change of the metric's ACV-range total
      against the preceding known quarter; 0 without a predecessor or with a zero
      previous total. Files are read only when a predecessor exists. */
  function GetQuarterOverQuarterGrowth(files: DataFiles, currentQuarter: string, metric: Metric): (r: Result<real>)
    ensures IndexOf(KnownQuarters, currentQuarter) <= 0 ==> r == Ok(0.0)
    ensures IndexOf(KnownQuarters, currentQuarter) > 0 ==>
      (r.Ok? <==> files.acvRangeFile.Some?) && (r.Err? ==> r.message == "Failed to read acv-range.json")
  {
    var currentIndex := IndexOf(KnownQuarters, currentQuarter);
    if currentIndex <= 0 then Ok(0.0)
    else
      var previousQuarter := KnownQuarters[currentIndex - 1];
      match (GetACVRanges(files, Some(currentQuarter)), GetACVRanges(files, Some(previousQuarter)))
      case (Err(message), _) => Err(message)
      case (_, Err(message)) => Err(message)
      case (Ok(currentData), Ok(previousData)) =>
        var currentTotal := SumBy(currentData, MetricField(metric));
        var previousTotal := SumBy(previousData, MetricField(metric));
        Ok(PercentChange(currentTotal, previousTotal))
  }

  /** `previousTotal === 0 ? 0 : ((currentTotal - previousTotal) / previousTotal) * 100`. */
  function PercentChange(current: real, previous: real): real
  {
    if previous == 0.0 then 0.0 else (current - previous) / previous * 100.0
  }

  /** What the percentage means: 0 against a zero base; otherwise the change scaled by
      100 relative to the base, positive exactly when a positive base grew. */
  lemma PercentChangeMeaning(current: real, previous: real)
    ensures previous == 0.0 ==> PercentChange(current, previous) == 0.0
    ensures previous != 0.0 ==> PercentChange(current, previous) * previous == (current - previous) * 100.0
    ensures previous > 0.0 ==> (PercentChange(current, previous) > 0.0 <==> current > previous)
    ensures previous > 0.0 ==> (PercentChange(current, previous) == 0.0 <==> current == previous)
  {
  }

  /** For the first known quarter and for any quarter outside the list, growth is 0,
      whether or not the data can be read. */
  lemma GrowthZeroWithoutPredecessor(files: DataFiles, currentQuarter: string, metric: Metric)
    requires currentQuarter !in KnownQuarters[1..]
    ensures GetQuarterOverQuarterGrowth(files, currentQuarter, metric) == Ok(0.0)
  {
  }

  lemma KnownQuartersIndex(k: nat)
    requires k < |KnownQuarters|
    ensures IndexOf(KnownQuarters, KnownQuarters[k]) == k
  {
  }

  /** For a known quarter with a predecessor, growth is the percentage change from the
      metric's ACV-range total of the immediately preceding known quarter to that of
      the quarter. */
  lemma {:induction false} GrowthAgainstPreviousQuarter(files: DataFiles, k: nat, metric: Metric)
    requires 1 <= k < |KnownQuarters|
    requires files.acvRangeFile.Some?
    ensures
      var records := files.acvRangeFile.value;
      GetQuarterOverQuarterGrowth(files, KnownQuarters[k], metric) == Ok(PercentChange(
        SumByKey(records, ACVRangeQuarter, KnownQuarters[k], MetricField(metric)),
        SumByKey(records, ACVRangeQuarter, KnownQuarters[k - 1], MetricField(metric))))
  {
    var records := files.acvRangeFile.value;
    KnownQuartersIndex(k);
    FilterByKeySum(records, ACVRangeQuarter, KnownQuarters[k], MetricField(metric));
    FilterByKeySum(records, ACVRangeQuarter, KnownQuarters[k - 1], MetricField(metric));
  }

  /** Growth measures the same totals `getTotalACV` and `getTotalCount` report. */
  lemma GrowthUsesReportedTotals(files: DataFiles, k: nat)
    requires 1 <= k < |KnownQuarters|
    requires files.acvRangeFile.Some?
    ensures GetQuarterOverQuarterGrowth(files, KnownQuarters[k], Acv) == Ok(PercentChange(
      GetTotalACV(files, KnownQuarters[k]).value, GetTotalACV(files, KnownQuarters[k - 1]).value))
    ensures GetQuarterOverQuarterGrowth(files, KnownQuarters[k], Count) == Ok(PercentChange(
      GetTotalCount(files, KnownQuarters[k]).value, GetTotalCount(files, KnownQuarters[k - 1]).value))
  {
  }

  /** The worked example: a current count of 41 against a previous count of 34. */
  lemma GrowthExample()
    ensures
      var records := [
        ACVRange("<$20K", 20.0, 150.0, "2024-Q1"),
        ACVRange(">=$200K", 21.0, 900.0, "2024-Q1"),
        ACVRange("<$20K", 34.0, 500.0, "2023-Q4")];
      GetQuarterOverQuarterGrowth(DataFiles(None, None, None, Some(records)), "2024-Q1", Count)
        == Ok(700.0 / 34.0)
  {
    var records := [
      ACVRange("<$20K", 20.0, 150.0, "2024-Q1"),
      ACVRange(">=$200K", 21.0, 900.0, "2024-Q1"),
      ACVRange("<$20K", 34.0, 500.0, "2023-Q4")];
    var files := DataFiles(None, None, None, Some(records));
    GrowthAgainstPreviousQuarter(files, 2, Count);
    assert SumByKey(records, ACVRangeQuarter, "2024-Q1", ACVRangeCount) == 41.0;
    assert SumByKey(records, ACVRangeQuarter, "2023-Q4", ACVRangeCount) == 34.0;
  }

  /** Rows of the end-to-end example: two 2024-Q1 rows and one 2023-Q4 row. */
  const ExampleCustomerTypes: seq<CustomerType> := [
    CustomerType("New", 10.0, 0.0, "2024-Q1"),
    CustomerType("Existing", 19.0, 0.0, "2024-Q1"),
    CustomerType("New", 8.0, 0.0, "2023-Q4")]

  lemma ExampleRowsOfQuarter()
    ensures FilterByKey(ExampleCustomerTypes, CustomerTypeQuarter, "2024-Q1") == ExampleCustomerTypes[..2]
  {
  }

  /** The end-to-end example: the customer-type chart of 2024-Q1 holds that quarter's
      rows in file order, and their total. */
  lemma CustomerTypeChartExample()
    ensures GetCustomerTypeChartData(DataFiles(Some(ExampleCustomerTypes), None, None, None), Some("2024-Q1"))
         == Ok(ChartData(["New", "Existing"], [10.0, 19.0], 29.0))
  {
    var files := DataFiles(Some(ExampleCustomerTypes), None, None, None);
    ExampleRowsOfQuarter();
    var rows := ExampleCustomerTypes[..2];
    assert rows == [rows[0], rows[1]];
    assert GetCustomerTypes(files, Some("2024-Q1")) == Ok(rows);
    TransformPair(rows[0], rows[1], CustomerTypeLabel, CustomerTypeCount);
  }

  lemma TransformPair<T>(a: T, b: T, labelOf: T -> string, valueOf: T -> real)
    ensures TransformForChart([a, b], labelOf, valueOf)
         == ChartData([labelOf(a), labelOf(b)], [valueOf(a), valueOf(b)], valueOf(a) + valueOf(b))
  {
    var chart := TransformForChart([a, b], labelOf, valueOf);
    assert chart.labels == [labelOf(a), labelOf(b)];
    assert chart.values == [valueOf(a), valueOf(b)];
    var vs := [valueOf(a), valueOf(b)];
    assert vs[1..] == [valueOf(b)];
    assert [valueOf(b)][1..] == [];
    assert Sum([valueOf(b)]) == valueOf(b) + Sum([]);
    assert Sum(vs) == valueOf(a) + Sum([valueOf(b)]);
  }

  /** The unknown quarter 2099-Q9 gives an empty customer-type series, not an error. */
  lemma UnknownQuarterChartExample()
    ensures GetCustomerTypeChartData(DataFiles(Some(ExampleCustomerTypes), None, None, None), Some("2099-Q9"))
         == Ok(ChartData([], [], 0.0))
  {
  }
}
