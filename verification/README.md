# Sales dashboard: quarter filters, chart series and dashboard state

This project is a Dafny model of the logic at the centre of a small sales-analytics dashboard. It covers three parts:

- **The backend data service.** It reads four collections of per-quarter records: customer types, account industries, teams and ACV ranges. It filters each collection by an optional fiscal quarter and turns the result into chart series of the form `{labels, values, total}`. It also sums ACV and deal counts, and computes quarter-over-quarter growth against a fixed list of known quarters.
- **The frontend Redux slice.** A state with three fields, `data`, `loading` and `error`, driven by the pending, fulfilled and rejected actions of the fetch.
- **The pure logic of the dashboard component.** This covers the quarter options and the default (latest) quarter, the per-quarter `{label, value}` chart items, the choice between skeletons, error, nothing and charts, the dispatch from chart type to renderer, and the chart type chosen for each card.

Modules:

| file | module | models |
|---|---|---|
| `optional.dfy` | `Optional` | absent values, and results that carry a thrown error's message |
| `sequences.dfy` | `Sequences` | `filter`, `map`, `reduce`-sums, `new Set`, `reverse`, each with an independent characterisation |
| `lex_order.dfy` | `LexOrder` | the default string ordering of `sort()`, and a functional sort |
| `backend_types.dfy` | `BackendTypes` | `be/src/types/data.ts` |
| `data_service.dfy` | `DataService` | `be/src/services/dataService.ts` |
| `frontend_types.dfy` | `FrontendTypes` | `fe/src/types/index.ts` |
| `dashboard_slice.dfy` | `DashboardSlice` | `fe/src/store/dashboardSlice.ts` |
| `dashboard.dfy` | `Dashboard` | the pure logic of `fe/src/components/Dashboard.tsx` |
| `consistency.dfy` | `Consistency` | how the frontend charts relate to the backend series |

Modelling choices:

- Every JSON `number` is a Dafny `real`. This covers `count`, `acv`, chart values, totals and growth. Arithmetic is exact.
- A fiscal quarter is an arbitrary `string`. The four-value `FiscalQuarter` type is only a compile-time cast, and any query string gets through.
- An optional quarter is an `Option<string>`. The backend filters only when the quarter is truthy, so an absent quarter and the empty string both mean "no filter".
- The data directory is an input value, `DataFiles`. Each JSON file either parses to its records or is `None` (it cannot be read or parsed). A read failure becomes `Err("Failed to read <file>")`, which is the error the service throws. `getDashboardData` replaces any such failure with `"Failed to get dashboard data"`.
- A chart type is a plain string. The program only ever passes `bar`, `line` or `doughnut`: the selector offers just those three (fe/src/components/ChartTypeSelector.tsx:71-73) and the cards start from valid names (fe/src/components/Dashboard.tsx:73-78). The model accepts any name so that the `default` branch of `renderChart` is covered too.
- React state is made explicit. `selectedQuarter` and the chart-type map are inputs to `Render`. The selection effect is `SelectLatestQuarter`.

Facts about the code the model relies on:

- The record label fields are `Cust_Type`, `Acct_Industry`, `Team` and `ACV_Range`.
- The raw-record endpoints call the accessors without a quarter, so they are never filtered (be/src/controllers/dashboardController.ts:118). `DashboardDataIsUnfilteredAccessors` states what they return.
- The frontend ACV-range chart plots `count`, while the backend ACV series plots `acv`. `Consistency.ACVRangeChartsDiffer` states this.

## Model

| member | source | states |
|---|---|---|
| `DataService.FilterByQuarter` | be/src/services/dataService.ts:71 | an absent or empty quarter returns the records unchanged; otherwise the result is exactly the records of that quarter, each with all its occurrences, in their original order |
| `Sequences.FilterByKeyIsSlice` | be/src/services/dataService.ts:71 | the filter keeps exactly the records whose key matches: a subsequence of the input, every kept record matches, and every matching record keeps all its occurrences |
| `Sequences.FilterByKeyConcat` | be/src/services/dataService.ts:71 | filtering distributes over concatenation, so relative order is preserved |
| `Sequences.FilterByKeyKeepsAll` | be/src/services/dataService.ts:71 | when every record matches, the filter is the identity |
| `DataService.GetCustomerTypes` | be/src/services/dataService.ts:69-72 | succeeds exactly when the customer-type file can be read, and otherwise fails naming that file; applies the truthy-quarter filter on the quarter field |
| `DataService.GetAccountIndustries` | be/src/services/dataService.ts:79-82 | the same contract for the account-industry file |
| `DataService.GetTeams` | be/src/services/dataService.ts:89-92 | the same contract for the team file |
| `DataService.GetACVRanges` | be/src/services/dataService.ts:99-102 | the same contract for the ACV-range file |
| `DataService.UnknownQuarterYieldsNothing` | be/src/services/dataService.ts:69-102 | for each of the four accessors: a non-empty quarter that no record of a readable file carries gives an empty result, not an error |
| `DataService.UnknownQuarterNoCustomerTypes` | be/src/services/dataService.ts:71 | a readable customer-type file with no record of a non-empty quarter gives `Ok([])` |
| `DataService.UnknownQuarterNoAccountIndustries` | be/src/services/dataService.ts:81 | the same for the account-industry file |
| `DataService.UnknownQuarterNoTeams` | be/src/services/dataService.ts:91 | the same for the team file |
| `DataService.UnknownQuarterNoACVRanges` | be/src/services/dataService.ts:101 | the same for the ACV-range file |
| `DataService.TransformForChart` | be/src/services/dataService.ts:156-166 | one label and one value per record, positionally from the label and value fields; the total is the sum of the values (0 for no records) |
| `Sequences.SumByIsSumOfMap` | be/src/services/dataService.ts:164 | the `reduce` fold over the records equals the sum of the mapped values |
| `DataService.GetCustomerTypeChartData` | be/src/services/dataService.ts:173-176 | the series labels are `Cust_Type` and the values are `count` of the filtered records, and the total is their sum; it fails exactly when the file cannot be read |
| `DataService.GetAccountIndustryChartData` | be/src/services/dataService.ts:183-186 | labels are `Acct_Industry` and values are `count` of the filtered records; total is their sum |
| `DataService.GetTeamChartData` | be/src/services/dataService.ts:193-196 | labels are `Team` and values are `count` of the filtered records; total is their sum |
| `DataService.GetACVRangeChartData` | be/src/services/dataService.ts:203-206 | labels are `ACV_Range` and values are `acv` of the filtered records; total is their sum |
| `DataService.CustomerTypeChartExample` | be/src/services/dataService.ts:173-176 | the worked example: of three rows, the two of 2024-Q1 give labels New, Existing, values 10, 19 and total 29 |
| `DataService.UnknownQuarterChartExample` | be/src/services/dataService.ts:173-176 | the unknown quarter 2099-Q9 gives an empty series with total 0, not an error |
| `DataService.GetAllChartData` | be/src/services/dataService.ts:213-225 | succeeds exactly when all four files can be read, and then holds the four per-category series for the same quarter; otherwise the first unreadable file, in evaluation order, decides the error |
| `DataService.GetDashboardData` | be/src/services/dataService.ts:43-62 | succeeds exactly when all four files can be read, and then returns the four collections unfiltered; otherwise fails with the generic dashboard error |
| `DataService.DashboardDataIsUnfilteredAccessors` | be/src/services/dataService.ts:43-62 | the combined collections equal what each accessor returns when called without a quarter |
| `DataService.GetTotalACV` | be/src/services/dataService.ts:109-112 | the sum of `acv` over the ACV-range records of the quarter (all records for the empty quarter); fails exactly when the ACV-range file cannot be read |
| `DataService.GetTotalCount` | be/src/services/dataService.ts:119-122 | the sum of `count` over the ACV-range records of the quarter (all records for the empty quarter); fails exactly when the ACV-range file cannot be read |
| `DataService.TotalACVIsChartTotal` | be/src/services/dataService.ts:109-112 | a quarter's ACV total equals the total of its ACV-range chart series |
| `DataService.IndexOf` | be/src/services/dataService.ts:135 | `indexOf`: -1 exactly when the quarter is absent, otherwise the position of its first occurrence |
| `DataService.GetQuarterOverQuarterGrowth` | be/src/services/dataService.ts:130-147 | 0, without reading any file, when the quarter's index is at most 0; otherwise fails exactly when the ACV-range file cannot be read |
| `DataService.GrowthZeroWithoutPredecessor` | be/src/services/dataService.ts:134-137 | growth is 0 for 2023-Q3 and for every quarter outside the known list, even when the data cannot be read |
| `DataService.GrowthAgainstPreviousQuarter` | be/src/services/dataService.ts:139-146 | for a known quarter after the first, growth is the percentage change from the metric's ACV-range total of the immediately preceding known quarter |
| `DataService.PercentChangeMeaning` | be/src/services/dataService.ts:146 | 0 against a zero previous total; otherwise growth times the previous total is 100 times the change, and with a positive base growth is positive exactly when the total rose and 0 exactly when it is unchanged |
| `DataService.GrowthUsesReportedTotals` | be/src/services/dataService.ts:109-146 | growth compares exactly the totals that `getTotalACV` and `getTotalCount` report for the two quarters |
| `DataService.GrowthExample` | be/src/services/dataService.ts:143-146 | a count of 41 against a previous 34 gives a growth of 700/34 |
| `DashboardSlice.Reduce` | fe/src/store/dashboardSlice.ts:122-136 | pending sets loading, clears the error and keeps the data; fulfilled clears loading, stores the payload and keeps the error; rejected clears loading, keeps the data and stores the message, or the default message when it is missing or empty; other actions change nothing |
| `DashboardSlice.ReducerTestCases` | fe/src/store/__tests__/dashboardSlice.test.ts:19-55 | an unknown action on an undefined state gives the initial state, and the three actions applied to the initial state give the tested fields |
| `DashboardSlice.PendingThenFulfilled` | fe/src/store/dashboardSlice.ts:124-131 | from any state, pending then fulfilled ends with the payload, loading off and no error |
| `DashboardSlice.RunLoading` | fe/src/store/dashboardSlice.ts:124-135 | after any sequence of actions, loading is on exactly when the most recent lifecycle action was pending |
| `DashboardSlice.RunData` | fe/src/store/dashboardSlice.ts:124-135 | after any sequence of actions, data is the payload of the most recent fulfilled action; pending and rejected never clear it |
| `DashboardSlice.RunErrorNeverEmpty` | fe/src/store/dashboardSlice.ts:132-135 | starting from the initial state, the error is absent or a non-empty message |
| `Sequences.Distinct` | fe/src/components/Dashboard.tsx:181-186 | the distinct values hold every input value and only input values, with no repetition |
| `LexOrder.SortAscending` | fe/src/components/Dashboard.tsx:187 | the sorted sequence is a permutation of its input, in non-decreasing string order |
| `Sequences.Reverse` | fe/src/components/Dashboard.tsx:187 | the reversal holds the same elements, last first |
| `Dashboard.QuarterOptions` | fe/src/components/Dashboard.tsx:181-187 | the quarter options are strictly descending and are exactly the quarters the customer types mention |
| `Dashboard.SelectLatestQuarter` | fe/src/components/Dashboard.tsx:84-96 | when data with customer types arrives, the selection becomes the lexicographically greatest customer-type quarter; otherwise it is unchanged |
| `Dashboard.FilterByQuarter` | fe/src/components/Dashboard.tsx:190-196 | exactly the items of the selected quarter, in order; an empty selection is matched like any other quarter |
| `Dashboard.CustomerTypeChartItems` | fe/src/components/Dashboard.tsx:199-204 | one item per filtered record, in order, labelled `Cust_Type` with value `count` |
| `Dashboard.IndustryChartItems` | fe/src/components/Dashboard.tsx:206-211 | one item per filtered record, labelled `Acct_Industry` with value `count` |
| `Dashboard.TeamChartItems` | fe/src/components/Dashboard.tsx:213-218 | one item per filtered record, labelled `Team` with value `count` |
| `Dashboard.AcvChartItems` | fe/src/components/Dashboard.tsx:220-225 | one item per filtered record, labelled `ACV_Range` with value `count` |
| `Dashboard.RenderChart` | fe/src/components/Dashboard.tsx:244-253 | line for "line", doughnut for "doughnut", bar for every other name, always drawing the given items |
| `Dashboard.SetChartType` | fe/src/components/Dashboard.tsx:483-540 | changing one card's chart type sets that card's type and leaves the other three unchanged |
| `Dashboard.Render` | fe/src/components/Dashboard.tsx:98-179 | skeletons exactly while loading; otherwise the error message exactly when the error is truthy; otherwise nothing exactly when data or the selected quarter is missing; otherwise the four charts of the selected quarter with their chosen types |
| `Dashboard.LoadedDashboardShowsLatestQuarter` | fe/src/components/Dashboard.tsx:73-96 | after a successful fetch from the initial state, the dashboard shows the latest quarter's charts with the default types: doughnut, bar, doughnut, bar |
| `Dashboard.RejectedShowsMessage` | fe/src/components/Dashboard.tsx:161-175 | after a rejected fetch, the view is the stored error message |
| `Sequences.FilterByKeyMap` | fe/src/components/Dashboard.tsx:190-196 | filtering after a field-preserving conversion keeps exactly the conversions of the records the original filter keeps, in order; this is how the frontend filter over converted records matches the backend filter |
| `Consistency.CustomerTypeChartsAgree` | fe/src/components/Dashboard.tsx:199-204 | for the same records and a non-empty quarter, the frontend customer-type items have the backend series' labels and values |
| `Consistency.ACVRangeChartsDiffer` | fe/src/components/Dashboard.tsx:220-225 | for the same records and a non-empty quarter, the frontend ACV-range items have the backend labels but plot `count` where the backend series holds `acv` |

## Left out

- File reading and JSON parsing (`readJsonFile`, be/src/services/dataService.ts:28-37). A file's parsed contents are an input, and an unreadable file is `None`. The `Promise.all` fan-out is modelled only through its effect: the whole call fails.
- The Express controller, routes and bootstrap. This is HTTP wiring. All of its error paths collapse to a 500 response.
- The D3 chart renderers, skeletons, landing page, theme selector and all styling. These are view code over external libraries. `renderChart` is modelled only as far as choosing a renderer.
- The fetch thunk's simulated two-second delay and hard-coded dataset. These are async machinery. Only the reducer transitions are modelled.
- The colour-theme selection and the `handleQuarterChange` handler. They only store the chosen string.
- IEEE-754 rounding. Sums, totals and the growth percentage are exact `real` arithmetic, so no rounding or overflow is modelled.
- LexOrder.SortAscending: the ordering compares Dafny characters, which are Unicode code points. JavaScript compares UTF-16 code units, so the two orders differ only for characters outside the Basic Multilingual Plane.
- The `undefined` state passed to the reducer is `None`. Redux's action matching by type string is replaced by the `Action` datatype.
