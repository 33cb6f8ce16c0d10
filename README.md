# ZenithFinance client core in Dafny

ZenithFinance is an Angular client for tracking a crypto-currency portfolio.
This project models the client-side logic of its services and dashboard
components, and proves properties of that model:

- **Dashboard state.** Holdings are joined with market quotes into valued
  assets and portfolio totals. Each recomputation emits one price-alert check
  per priced holding. A sharp 24-hour move raises a toast once per asset for
  the lifetime of the service.
- **Price alerts and notifications.** Alerts are loaded with stale ones
  cleaned up, added, deleted and toggled. An alert fires when the price
  crosses its target; it is then deactivated and a notification row is
  written. The alert modal suggests the direction of a new alert. The
  notification list keeps an unread counter.
- **Market data.** There is a quote cache keyed by the sorted ids, plus
  search. In demo mode, asset details and price histories fall back to
  generated values. Coin rows map onto the app's `Asset`.
- **Charts and figures.** The portfolio-distribution doughnut shows the top
  five assets and an "OTROS" slice. The net-worth line chart has its
  coordinates, its SVG paths and its summary figures. The goal-progress
  figures and the what-if calculator are modelled too.
- **Exports.** The portfolio and transaction CSV files, and the sign logic of
  the HTML report.
- **Session mirror and settings.** The signed-in session is kept in
  `localStorage`. The registration and password-reset forms are modelled with
  their validators. So are the toast queue, the theme and the language
  dictionaries with `translate`.

How the model is built:

- **Services become classes.** A service or component whose fields change in
  place is a `class`, and its methods state the new state. `localStorage` is a
  `Storage.LocalStorage` object holding a `map`.
- **Pure code becomes functions.** Computations are functions, and their
  properties are lemmas.
- **JavaScript numbers are `real`.**
- **The outside world is an input.** Inputs include the hosted backend's
  answer to a request, the current time, `Math.random`, the number formatters
  (`toFixed`, `toLocaleString`), `JSON.stringify`/`JSON.parse`, and the form
  library's e-mail test.

## Model

| member | source | states |
|---|---|---|
| DashboardState.HoldingIds | src/app/features/dashboard/dashboard-state.service.ts:28-34 | one id per holding, in order, each the holding's `asset_id` |
| DashboardState.AssetIds | src/app/features/dashboard/dashboard-state.service.ts:28-34 | an empty portfolio asks for bitcoin, ethereum and solana; otherwise exactly the holdings' ids in order |
| DashboardState.FirstMatch | src/app/features/dashboard/dashboard-state.service.ts:50 | the index `find` stops at: the first quote with the id, or past the end when none has it |
| DashboardState.FindMarket | src/app/features/dashboard/dashboard-state.service.ts:50 | no quote is found exactly when no quote has the id; a found quote is one of the quotes and carries the id |
| DashboardState.Percentage | src/app/features/dashboard/dashboard-state.service.ts:72-74 | on a positive base the result is the part as a percentage of the base; on a non-positive base it is 0 |
| DashboardState.DisplayName | src/app/features/dashboard/dashboard-state.service.ts:80 | the market name when non-empty, else the stored asset name when non-empty, else the asset id |
| DashboardState.Enrich | src/app/features/dashboard/dashboard-state.service.ts:49-90 | identity fields are copied from the holding; the name is market name, stored name or id; a quoted holding takes the quote's price, image and 24h change; an unquoted one is worth 0 with no image or 24h change; value = quantity × price; profit = value − cost; percentage = profit over cost, 0 on zero cost |
| DashboardState.EnrichAll | src/app/features/dashboard/dashboard-state.service.ts:49-90 | one enriched asset per holding, in order, each carrying its holding's id, asset id, quantity and buy price |
| DashboardState.Valuate | src/app/features/dashboard/dashboard-state.service.ts:92-107 | totals: value is the sum of the assets' values; investment is the sum of cost bases; profit = value − investment; percentage of investment, 0 on none; loading ends |
| DashboardState.TotalProfitLossIsSumOfAssets | src/app/features/dashboard/dashboard-state.service.ts:92-98 | the portfolio's profit/loss equals the sum of the per-asset profit/loss figures |
| DashboardState.EmptyPortfolioIsZero | src/app/features/dashboard/dashboard-state.service.ts:92-107 | an empty portfolio values to all zeros and is no longer loading |
| DashboardState.ValuationExample | src/app/features/dashboard/dashboard-state.service.ts:67-98 | 2 units bought at 10 and quoted at 15: value 30, profit 10, return 50% |
| DashboardState.PricedChecks | src/app/features/dashboard/dashboard-state.service.ts:54-55 | every emitted alert check has a positive current price; every priced holding has its check; no more checks than holdings |
| DashboardState.SharpMovesAreDeduplicated | src/app/features/dashboard/dashboard-state.service.ts:53-64 | toasts only for assets not yet notified, never two for one asset, only on a priced holding whose 24h move is at least 5%; the notified set grows by exactly the toasted assets |
| DashboardState.AtMostOncePerLifetime | src/app/features/dashboard/dashboard-state.service.ts:22 | an asset toasted in one recomputation is never toasted in the next, whatever the new holdings and quotes |
| DashboardState.DashboardStateService.constructor | src/app/features/dashboard/dashboard-state.service.ts:22 | the service starts with no asset notified |
| DashboardState.DashboardStateService.Recompute | src/app/features/dashboard/dashboard-state.service.ts:48-107 | the loop produces the valuation, the alert checks and the sharp-move toasts above, and the notified set that follows |
| Alerts.ActiveForMembers | src/app/core/services/alert.service.ts:97 | the candidates are exactly the stored alerts that are active and watch the asset |
| Alerts.TriggeringMembers | src/app/core/services/alert.service.ts:101-105 | the triggered alerts are exactly the candidates whose condition the price meets (above: at or over the target; below: at or under it) |
| Alerts.FiredMembers | src/app/core/services/alert.service.ts:96-105 | an alert fires exactly when it is stored, active, watches the asset and its condition holds |
| Alerts.IdsOfMembers | src/app/core/services/alert.service.ts:101-105 | the ids collected are exactly the ids of the alerts |
| Alerts.SetStatus | src/app/core/services/alert.service.ts:133-148 | toggling keeps the number of alerts |
| Alerts.SetStatusPointwise | src/app/core/services/alert.service.ts:133-148 | only alerts with the id change: reactivated, or deactivated with the trigger time |
| Alerts.DeactivateIds | src/app/core/services/alert.service.ts:107-110 | deactivating a batch keeps the number of alerts |
| Alerts.DeactivateIdsPointwise | src/app/core/services/alert.service.ts:107-110 | exactly the alerts whose id is in the batch are deactivated |
| Alerts.DeactivateNone | src/app/core/services/alert.service.ts:107-110 | an empty batch changes nothing |
| Alerts.CheckAlertsExact | src/app/core/services/alert.service.ts:96-112 | with unique ids, a check deactivates exactly the alerts that fire and leaves every other alert as it was |
| Alerts.DeactivatedNeverRetrigger | src/app/core/services/alert.service.ts:97-105 | a deactivated alert never fires again, at any price |
| Alerts.StaleAlertsMembers | src/app/core/services/alert.service.ts:45-49 | the stale alerts are exactly the inactive ones triggered more than a day ago |
| Alerts.WithoutIdMembers | src/app/core/services/alert.service.ts:81-94 | deleting an id keeps exactly the alerts with other ids |
| Alerts.WithoutIdsMembers | src/app/core/services/alert.service.ts:41-54 | deleting a batch keeps exactly the alerts whose id is not in it |
| Alerts.ConfirmedMembers | src/app/core/services/alert.service.ts:88-92 | the confirmed deletes are exactly the candidates whose delete the backend accepted |
| Alerts.RefusedDeleteStays | src/app/core/services/alert.service.ts:88-92 | an alert whose delete is refused stays in the list after cleanup |
| Alerts.AllDeletedIsFullCleanup | src/app/core/services/alert.service.ts:41-54 | with every delete accepted the cleanup removes every stale alert |
| Alerts.CleanupLeavesNoStale | src/app/core/services/alert.service.ts:41-54 | after cleanup no stale alert is left and every fresh one is kept |
| Alerts.AlertRowsShape | src/app/core/services/alert.service.ts:114-131 | without a user no notification row; with one, one unread ASSET_ALERT row per fired alert, addressed to the user |
| Alerts.AlertService.constructor | src/app/core/services/alert.service.ts:17 | the service starts with no alerts |
| Alerts.AlertService.LoadAlerts | src/app/core/services/alert.service.ts:23-39 | without a user or data nothing changes; otherwise the loaded alerts minus the stale ones whose delete the backend confirmed |
| Alerts.AlertService.CleanupOldAlerts | src/app/core/services/alert.service.ts:41-54 | the loop deletes the stale alerts one id at a time; an alert leaves the list exactly when its delete is confirmed |
| Alerts.AlertService.AddAlert | src/app/core/services/alert.service.ts:56-79 | without a user nothing is sent; otherwise the draft is sent owned by the user and active, and the row the backend returns is appended, with nothing appended on an error |
| Alerts.AlertService.DeleteAlert | src/app/core/services/alert.service.ts:81-94 | on an answer without an error every alert with the id is removed; on an error the list is unchanged |
| Alerts.AlertService.CheckAlerts | src/app/core/services/alert.service.ts:96-112 | the loop deactivates the fired alerts and writes one notification row per fired alert |
| Alerts.AlertService.Evaluate | src/app/core/services/alert.service.ts:101-105 | the trigger test: above means the price is at or over the target, below means at or under |
| Alerts.AlertService.TriggerAlertNotification | src/app/core/services/alert.service.ts:114-131 | one unread ASSET_ALERT row for the signed-in user, none without a user |
| Alerts.AlertService.ToggleAlertStatus | src/app/core/services/alert.service.ts:133-148 | the alerts with the id take the new status |
| AlertModal.Suggest | src/app/features/dashboard/components/alert-modal/alert-modal.component.ts:62 | ABOVE exactly when the target is over the current price |
| AlertModal.SuggestionWaits | src/app/features/dashboard/components/alert-modal/alert-modal.component.ts:56-66 | an alert with the suggested condition does not fire at the current price unless the target equals it |
| AlertModal.PriceChangePercentage | src/app/features/dashboard/components/alert-modal/alert-modal.component.ts:93-101 | 0 without an asset or a target; undefined (NaN or infinite) on a zero price; otherwise the target's distance from the price, as a percentage of the price |
| AlertModal.PercentageAgreesWithSuggestion | src/app/features/dashboard/components/alert-modal/alert-modal.component.ts:56-101 | the shown change is positive exactly when the suggestion is ABOVE |
| AlertModal.AlertModalComponent.constructor | src/app/features/dashboard/components/alert-modal/alert-modal.component.ts:21-34 | hidden, idle, no asset, an empty target and condition ABOVE |
| AlertModal.AlertModalComponent.Open | src/app/features/dashboard/components/alert-modal/alert-modal.component.ts:36-48 | shows the asset, with the current price as target and ABOVE suggested |
| AlertModal.AlertModalComponent.Close | src/app/features/dashboard/components/alert-modal/alert-modal.component.ts:50-54 | hides the modal and resets the form and the asset |
| AlertModal.AlertModalComponent.OnPriceChange | src/app/features/dashboard/components/alert-modal/alert-modal.component.ts:56-66 | with an asset and a usable target the condition follows the suggestion; otherwise nothing changes |
| AlertModal.AlertModalComponent.BeginSubmit | src/app/features/dashboard/components/alert-modal/alert-modal.component.ts:68-79 | nothing is sent on an invalid form, while loading or without an asset; otherwise the draft carries the asset and a target of at least 0.01 |
| AlertModal.AlertModalComponent.FinishSubmit | src/app/features/dashboard/components/alert-modal/alert-modal.component.ts:80-90 | success: toast "Alerta creada: …" and close; failure: error toast, and the form stays open |
| Market.KeyIgnoresOrder | src/app/core/services/market.service.ts:22 | two sorted arrangements of the same ids give the same cache key |
| Market.SortIds | src/app/core/services/market.service.ts:22 | in-place insertion sort: the ids end sorted and are a permutation of the input |
| Market.Insert | src/app/core/services/market.service.ts:22 | one insertion step: the prefix grows sorted and the array stays a permutation |
| Market.MarketService.constructor | src/app/core/services/market.service.ts:17 | the cache starts empty |
| Market.MarketService.GetMarketAssets | src/app/core/services/market.service.ts:20-34 | the caller's id array is sorted in place; a cached key returns the cached stream and leaves the cache alone; a new key creates a refreshing stream and caches it |
| Market.DefaultIdsSorted | src/app/core/services/market.service.ts:20-21 | the five default ids sort, under the default string order, to bitcoin, cardano, ethereum, polkadot, solana |
| Market.MarketService.GetDefaultMarketAssets | src/app/core/services/market.service.ts:20-34 | without arguments the five default ids in `usd` are used: the stream cached under their sorted key, or a new one cached there |
| Market.MarketService.ClearCache | src/app/core/services/market.service.ts:109-111 | the cache is emptied |
| Market.SecondCallHits | src/app/core/services/market.service.ts:20-34 | after caching a stream, a request for the same ids in any order hits it |
| Market.Hits | src/app/core/services/market.service.ts:40-45 | one hit per coin, in order, with the large image as the image |
| Market.SearchAssets | src/app/core/services/market.service.ts:36-51 | queries shorter than 2 characters (code points) send nothing and give no hits; otherwise the search URL is requested and failures give no hits |
| Market.DemoPrice | src/app/core/services/market.service.ts:81-100 | the listed demo price, 100 for an unlisted id, always positive |
| Market.DemoPriceTable | src/app/core/services/market.service.ts:81-94 | sample table entries: bitcoin 45000, ripple 0.55, and an unknown coin 100 |
| Market.GetAssetDetails | src/app/core/services/market.service.ts:53-75 | always succeeds: the backend's details, or the demo details with the demo price |
| Market.WalkPriceBounds | src/app/core/services/market.service.ts:161-167 | the generated walk starts at the base price and stays within −2.6% and +2.6% of it |
| Market.GenerateDemoHistoryData | src/app/core/services/market.service.ts:137-170 | the loop gives one point per day, at `now − (days − i)` days, priced by the walk |
| Market.DemoTimestamps | src/app/core/services/market.service.ts:161-167 | the demo timestamps strictly increase, from `days` days ago to one day ago |
| Market.GetAssetHistory | src/app/core/services/market.service.ts:113-132 | always succeeds: the backend's history, or on failure the demo history |
| Market.MapToAssetRenames | src/app/core/services/market.service.ts:192-205 | mapping is a field renaming: a coin row built from an asset maps back to that asset |
| Market.MapAll | src/app/core/services/market.service.ts:183 | one mapped asset per row, in order |
| Market.FetchMarketData | src/app/core/services/market.service.ts:172-190 | a failure becomes the fixed error message; success maps each row, keeping its id and price |
| PortfolioDistribution.SortDescCorrect | src/app/features/dashboard/components/portfolio-distribution/portfolio-distribution.component.ts:91 | the sort is by descending value, a permutation of the assets, and keeps the total |
| PortfolioDistribution.Labels | src/app/features/dashboard/components/portfolio-distribution/portfolio-distribution.component.ts:97 | one label per top asset: its symbol with the ASCII letters `a`–`z` upper-cased |
| PortfolioDistribution.Values | src/app/features/dashboard/components/portfolio-distribution/portfolio-distribution.component.ts:98 | one slice value per top asset: its total value |
| PortfolioDistribution.SumValuesOf | src/app/features/dashboard/components/portfolio-distribution/portfolio-distribution.component.ts:97-98 | the slice values add up to the top assets' total |
| PortfolioDistribution.TopSlices | src/app/features/dashboard/components/portfolio-distribution/portfolio-distribution.component.ts:91-98 | at most six slices; the first ones are the largest assets, in descending order |
| PortfolioDistribution.OthersSlice | src/app/features/dashboard/components/portfolio-distribution/portfolio-distribution.component.ts:100-104 | an OTROS slice exists exactly when there are more than five assets, and holds the total of the rest |
| PortfolioDistribution.SlicesKeepTotal | src/app/features/dashboard/components/portfolio-distribution/portfolio-distribution.component.ts:94-104 | the doughnut's slices add up to the whole portfolio |
| PortfolioDistribution.PortfolioDistributionComponent.constructor | src/app/features/dashboard/components/portfolio-distribution/portfolio-distribution.component.ts:23-40 | no assets and an empty chart with the palette |
| PortfolioDistribution.PortfolioDistributionComponent.OnAssetsChange | src/app/features/dashboard/components/portfolio-distribution/portfolio-distribution.component.ts:81-85 | new assets redraw the chart; no assets leave it alone |
| PortfolioDistribution.PortfolioDistributionComponent.UpdateChartData | src/app/features/dashboard/components/portfolio-distribution/portfolio-distribution.component.ts:87-113 | the chart's labels and data become the slices, and its style is kept |
| GoalProgress.ActiveGoal | src/app/features/dashboard/components/goal-progress/goal-progress.component.ts:27-29 | the first goal, none when there are no goals |
| GoalProgress.ProgressPercentage | src/app/features/dashboard/components/goal-progress/goal-progress.component.ts:31-35 | capped at 100; 0 without a goal; otherwise the balance as a percentage of the target |
| GoalProgress.RemainingAmount | src/app/features/dashboard/components/goal-progress/goal-progress.component.ts:37-40 | never negative; either 0 or exactly what the balance lacks to reach the target |
| GoalProgress.GoalReached | src/app/features/dashboard/components/goal-progress/goal-progress.component.ts:31-40 | the goal is reached exactly when nothing remains, and exactly when progress is 100% |
| GoalProgress.ProgressMonotone | src/app/features/dashboard/components/goal-progress/goal-progress.component.ts:31-40 | a larger balance never shows less progress or more remaining |
| NetWorthChart.MaxValue | src/app/features/dashboard/components/net-worth-chart/net-worth-chart.component.ts:36 | the largest snapshot value: an upper bound that some snapshot attains |
| NetWorthChart.MinValue | src/app/features/dashboard/components/net-worth-chart/net-worth-chart.component.ts:37 | the smallest snapshot value: a lower bound that some snapshot attains |
| NetWorthChart.Range | src/app/features/dashboard/components/net-worth-chart/net-worth-chart.component.ts:38 | always positive; the spread when the values differ |
| NetWorthChart.LastIndex | src/app/features/dashboard/components/net-worth-chart/net-worth-chart.component.ts:40 | the x divisor is always positive |
| NetWorthChart.ChartData | src/app/features/dashboard/components/net-worth-chart/net-worth-chart.component.ts:32-46 | one point per snapshot |
| NetWorthChart.OnePointPerSnapshot | src/app/features/dashboard/components/net-worth-chart/net-worth-chart.component.ts:40-45 | the i-th point belongs to the i-th snapshot |
| NetWorthChart.PointsInBox | src/app/features/dashboard/components/net-worth-chart/net-worth-chart.component.ts:36-45 | every point lies in the 100×100 box, with y = 100 − percentage |
| NetWorthChart.XSpansTheBox | src/app/features/dashboard/components/net-worth-chart/net-worth-chart.component.ts:40-41 | x starts at 0, ends at 100 and is evenly spaced |
| NetWorthChart.FlatHistory | src/app/features/dashboard/components/net-worth-chart/net-worth-chart.component.ts:36-45 | a constant history draws along the bottom edge |
| NetWorthChart.Coordinates | src/app/features/dashboard/components/net-worth-chart/net-worth-chart.component.ts:48-54 | one "x,y" pair per point, in order |
| NetWorthChart.PathsShareThePoints | src/app/features/dashboard/components/net-worth-chart/net-worth-chart.component.ts:48-62 | both paths are empty exactly without data; the area path closes the line path down to the bottom edge |
| NetWorthChart.PathOfTwo | src/app/features/dashboard/components/net-worth-chart/net-worth-chart.component.ts:48-54 | a two-point path is a move to the first point and a line to the second |
| NetWorthChart.SummaryFigures | src/app/features/dashboard/components/net-worth-chart/net-worth-chart.component.ts:64-86 | start + change = current; the change as a percentage of the start, 0 at a zero start; trend up exactly when current ≥ start |
| WhatIf.FindPopularFirst | src/app/features/dashboard/components/what-if-calculator/what-if-calculator.component.ts:111 | none exactly when no listed asset has the symbol; otherwise the first listed asset with that symbol |
| WhatIf.ScenarioMeaning | src/app/features/dashboard/components/what-if-calculator/what-if-calculator.component.ts:132-135 | the units bought cost the amount invested; they are now worth units × today's price; profit = value − invested; a gain exactly when the price rose; the return equals the price change in percent |
| WhatIf.WhatIfCalculator.constructor | src/app/features/dashboard/components/what-if-calculator/what-if-calculator.component.ts:38-49 | hidden, idle, 1000 invested in BTC over 365 days |
| WhatIf.WhatIfCalculator.Open | src/app/features/dashboard/components/what-if-calculator/what-if-calculator.component.ts:76-79 | shown with the result cleared |
| WhatIf.WhatIfCalculator.Close | src/app/features/dashboard/components/what-if-calculator/what-if-calculator.component.ts:81-84 | hidden with the result cleared |
| WhatIf.WhatIfCalculator.SelectAsset | src/app/features/dashboard/components/what-if-calculator/what-if-calculator.component.ts:86-89 | the field and its signal both take the symbol |
| WhatIf.WhatIfCalculator.SelectTimeframe | src/app/features/dashboard/components/what-if-calculator/what-if-calculator.component.ts:91-94 | the field and its signal both take the days |
| WhatIf.WhatIfCalculator.Calculate | src/app/features/dashboard/components/what-if-calculator/what-if-calculator.component.ts:96-155 | a non-positive amount only shows an error; an unknown symbol gives "Asset not found"; missing details or market data give "Could not fetch current price"; a missing or empty history gives "Could not fetch historical price"; with all of them present a result exists, built from the first historical price and the current price, with the success toast; the calculation ends idle |
| WhatIf.DemoDetailsAlwaysPriced | src/app/core/services/market.service.ts:53-75 | in demo mode every listed asset gets a current price, even when the request fails |
| PortfolioService.ValueConcat | src/app/core/services/portfolio.service.ts:97-103 | the value of a concatenation is the sum of the values |
| PortfolioService.ValueShape | src/app/core/services/portfolio.service.ts:97-103 | empty is 0; one asset is quantity × price; an asset without a quote adds nothing |
| PortfolioService.ValueNonNegative | src/app/core/services/portfolio.service.ts:97-103 | non-negative quantities and prices give a non-negative value |
| PortfolioService.AddAssetRequest | src/app/core/services/portfolio.service.ts:63-67 | an error exactly without a user ("User not authenticated"); otherwise the record is stamped with the user's id |
| PortfolioService.AddAssetKeepsRecord | src/app/core/services/portfolio.service.ts:67 | apart from the user id, the sent record is the caller's record |
| PortfolioService.PortfolioService.constructor | src/app/core/services/portfolio.service.ts:21-25 | no assets, not loading |
| PortfolioService.PortfolioService.LoadPortfolio | src/app/core/services/portfolio.service.ts:34-38 | a request is made exactly when a user is signed in, and loading starts |
| PortfolioService.PortfolioService.LoadFinished | src/app/core/services/portfolio.service.ts:45-60 | loading ends; data (or none) replaces the assets; an error keeps them |
| PortfolioService.PortfolioService.GetPortfolioValue | src/app/core/services/portfolio.service.ts:97-103 | no assets are worth 0 |
| Notifications.MarkRead | src/app/core/services/notification.service.ts:58 | marking keeps the length |
| Notifications.AllRead | src/app/core/services/notification.service.ts:69 | marking all keeps the length |
| Notifications.MarkReadPointwise | src/app/core/services/notification.service.ts:58 | exactly the notifications with the id become read |
| Notifications.AllReadPointwise | src/app/core/services/notification.service.ts:69 | every notification becomes read, nothing else changes |
| Notifications.MarkReadCount | src/app/core/services/notification.service.ts:58 | the unread count falls by exactly the unread notifications with the id |
| Notifications.UnreadWithIdUnique | src/app/core/services/notification.service.ts:7-16 | with unique ids, at most one unread notification has an id, and one exactly when such a notification exists |
| Notifications.AllReadSettles | src/app/core/services/notification.service.ts:68-70 | after marking all read nothing is unread, and marking again changes nothing |
| Notifications.NotificationService.constructor | src/app/core/services/notification.service.ts:26-27 | empty, with a counter that matches |
| Notifications.NotificationService.LoadNotifications | src/app/core/services/notification.service.ts:36-54 | no user or no data leaves the state; otherwise the list is replaced and the counter matches it |
| Notifications.NotificationService.MarkAsRead | src/app/core/services/notification.service.ts:56-66 | the optimistic update; the counter stays consistent exactly when an unread notification had the id |
| Notifications.NotificationService.MarkAllRead | src/app/core/services/notification.service.ts:68-70 | everything read, counter 0, consistent |
| Notifications.MarkAsReadCanDrift | src/app/core/services/notification.service.ts:58-59 | marking an already-read notification still lowers the counter below the true unread count |
| Export.Money | src/app/core/services/export.service.ts:19-22 | a money cell is "$" followed by the two-decimal figure |
| Export.Percent | src/app/core/services/export.service.ts:23 | a percentage cell is the two-decimal figure followed by "%" |
| Export.PortfolioRow | src/app/core/services/export.service.ts:15-24 | a portfolio row has one cell per header |
| Export.TotalRow | src/app/core/services/export.service.ts:28 | the total row has one cell per header |
| Export.PortfolioRows | src/app/core/services/export.service.ts:15-24 | one row per asset |
| Export.PortfolioRowsPointwise | src/app/core/services/export.service.ts:15-24 | the i-th row is the i-th asset's row |
| Export.TransactionRow | src/app/core/services/export.service.ts:44-51 | a transaction row has one cell per header; a missing symbol is an empty cell |
| Export.TransactionRows | src/app/core/services/export.service.ts:44-51 | one row per transaction |
| Export.TransactionRowsPointwise | src/app/core/services/export.service.ts:44-51 | the i-th row is the i-th transaction's row |
| Export.CsvLines | src/app/core/services/export.service.ts:30-33 | one line per table row |
| Export.CsvLinesPointwise | src/app/core/services/export.service.ts:30-33 | each line is its row joined with commas |
| Export.ExportPortfolioToCsv | src/app/core/services/export.service.ts:12-36 | the file content is the headers, the asset rows, an empty row and the total row, as CSV |
| Export.ExportTransactionsToCsv | src/app/core/services/export.service.ts:41-59 | the file content is the headers and the transaction rows, as CSV |
| Export.PortfolioTableShape | src/app/core/services/export.service.ts:13-28 | 8 headers, one 8-cell row per asset, an empty row, then TOTAL with the value and profit cells |
| Export.TransactionTableShape | src/app/core/services/export.service.ts:42-51 | 6 headers, then one 6-cell row per transaction |
| Export.LineAvoids | src/app/core/services/export.service.ts:30-33 | a character other than a comma is in no line exactly when it is in no cell |
| Export.LinesRoundTrip | src/app/core/services/export.service.ts:30-33 | splitting the file on newlines gives back its lines exactly when no cell holds a newline |
| Export.FieldsRoundTrip | src/app/core/services/export.service.ts:32 | splitting a line on commas gives back its cells exactly when no cell holds a comma |
| Export.HeadersAvoid | src/app/core/services/export.service.ts:13-42 | no header holds a comma or a newline |
| Export.TableReadsBack | src/app/core/services/export.service.ts:30-33 | a table without commas or newlines in its cells reads back exactly: lines, then cells |
| Export.RowReadsBack | src/app/core/services/export.service.ts:32 | a row without commas in its cells reads back exactly |
| Export.PortfolioCsvReadsBack | src/app/core/services/export.service.ts:12-36 | a clean portfolio file reads back as its headers, the asset rows, an empty line and the total row |
| Export.TransactionsCsvReadsBack | src/app/core/services/export.service.ts:41-59 | a clean transactions file reads back as its headers and the transaction rows |
| Export.CommaBreaksRow | src/app/core/services/export.service.ts:17 | an asset name holding a comma does not read back: the format quotes no field |
| Export.SignsAgree | src/app/core/services/export.service.ts:205-209 | "+" and the positive class exactly on a non-negative figure, and the two always agree |
| Export.SummaryCards | src/app/core/services/export.service.ts:170-183 | three cards; the profit and return cards are positive exactly on non-negative figures and then start with "+" |
| Export.HtmlRows | src/app/core/services/export.service.ts:198-212 | one HTML row per asset |
| Export.HtmlRowsConcat | src/app/core/services/export.service.ts:198-212 | the rows of a concatenation are the concatenated rows |
| Export.TableBodyInOrder | src/app/core/services/export.service.ts:198-212 | the table body lists the assets' rows in order, with no separator |
| Language.LookupSameShape | src/app/core/services/language.service.ts:186-188 | objects of the same shape have the same keys, with values of the same shape |
| Language.ResolveSameShape | src/app/core/services/language.service.ts:182-195 | a key path resolves in one dictionary exactly when it resolves in a dictionary of the same shape |
| Language.DictionariesAgree | src/app/core/services/language.service.ts:15-174 | the Spanish and English dictionaries have the same shape |
| Language.SameKeysInBothLanguages | src/app/core/services/language.service.ts:15-195 | a dotted key translates in Spanish exactly when it translates in English |
| Language.InitialLanguage | src/app/core/services/language.service.ts:203-209 | a stored 'es' or 'en' wins; otherwise Spanish exactly when the browser's primary subtag is 'es' |
| Language.LanguageService.constructor | src/app/core/services/language.service.ts:12-180 | the initial language, reflected on the document |
| Language.LanguageService.Translate | src/app/core/services/language.service.ts:182-195 | the value at the dotted key in the current language, or the key itself when the walk fails |
| Language.LanguageService.SetLanguage | src/app/core/services/language.service.ts:197-201 | the language, the document and the stored choice all change |
| Language.ChoiceSurvivesRestart | src/app/core/services/language.service.ts:197-209 | a stored choice is the language of the next start |
| TransactionHistory.TypeLabel | src/app/features/dashboard/components/transaction-history/transaction-history.component.ts:20-28 | an unknown type is shown as itself |
| TransactionHistory.LabelsAreTheSpanishDictionary | src/app/features/dashboard/components/transaction-history/transaction-history.component.ts:20-28 | each known label is the Spanish dictionary's entry for that type |
| TransactionHistory.LabelsAreDistinct | src/app/features/dashboard/components/transaction-history/transaction-history.component.ts:20-28 | the four known types get four different labels, none equal to its type |
| Toasts.WithoutId | src/app/core/services/toast.service.ts:43-45 | removing keeps exactly the toasts with other ids |
| Toasts.WithoutIdConcat | src/app/core/services/toast.service.ts:43-45 | removal distributes over concatenation, so order is kept |
| Toasts.WithoutAbsentId | src/app/core/services/toast.service.ts:43-45 | removing an absent id changes nothing |
| Toasts.ShowThenRemove | src/app/core/services/toast.service.ts:18-45 | showing a toast with a fresh id and then removing it restores the queue |
| Toasts.ToastService.constructor | src/app/core/services/toast.service.ts:16 | the queue starts empty |
| Toasts.ToastService.Show | src/app/core/services/toast.service.ts:18-29 | the toast is appended; auto-removal is scheduled exactly for a positive duration |
| Toasts.ToastService.ShowSuccess | src/app/core/services/toast.service.ts:31-33 | a success toast with the default 3000 ms duration |
| Toasts.ToastService.ShowError | src/app/core/services/toast.service.ts:35-37 | an error toast with the 5000 ms duration |
| Toasts.ToastService.ShowInfo | src/app/core/services/toast.service.ts:39-41 | an info toast with the default duration |
| Toasts.ToastService.Remove | src/app/core/services/toast.service.ts:43-45 | every toast with the id is removed |
| Theme.Flip | src/app/core/services/theme.service.ts:33-36 | toggling always changes the theme |
| Theme.FlipTwice | src/app/core/services/theme.service.ts:33-36 | toggling twice restores the theme |
| Theme.StoredTheme | src/app/core/services/theme.service.ts:42-49 | a stored 'light' or 'dark' wins; otherwise dark exactly when the system prefers it |
| Theme.ThemeClasses | src/app/core/services/theme.service.ts:60-61 | exactly the theme's class is present, and other classes are untouched |
| Theme.ThemeService.constructor | src/app/core/services/theme.service.ts:10-21 | the initial theme is applied to the document and stored |
| Theme.ThemeService.Sync | src/app/core/services/theme.service.ts:17-21 | the effect applies the theme (attribute, classes, meta colour when the tag exists) and stores it |
| Theme.ThemeService.ToggleTheme | src/app/core/services/theme.service.ts:33-36 | the other theme, applied and stored: the attribute, the theme class with the other root classes kept, the meta colour only where the tag exists |
| Theme.ThemeService.SetTheme | src/app/core/services/theme.service.ts:38-40 | the given theme, applied and stored: the attribute, the theme class with the other root classes kept, the meta colour only where the tag exists |
| Theme.ThemeService.OnSystemChange | src/app/core/services/theme.service.ts:24-30 | follows the system only when nothing is stored; once the theme is applied and stored, it changes nothing |
| Auth.DisplayName | src/app/core/services/auth.service.ts:49 | a non-empty metadata name; otherwise the e-mail's prefix before its first '@' |
| Auth.UserOf | src/app/core/services/auth.service.ts:46-52 | the app user carries the provider's id, e-mail, avatar and creation time, and the derived name |
| Auth.ReadStored | src/app/core/services/auth.service.ts:63-77 | nothing is restored exactly when the token or the user entry is missing or empty; a restore gives the stored token and the parsed user |
| Auth.SessionSurvivesRestart | src/app/core/services/auth.service.ts:63-77 | a session stored by `setAuth` is restored at the next start, given that the user's text parses back into the user |
| Auth.ClearedSessionStaysCleared | src/app/core/services/auth.service.ts:211-218 | after `clearAuth` nothing is restored, and other storage keys are kept |
| Auth.AuthService.constructor | src/app/core/services/auth.service.ts:11-21 | the session is empty, then loaded from storage |
| Auth.AuthService.LoadStoredAuth | src/app/core/services/auth.service.ts:63-77 | nothing stored: no change; unreadable user: everything cleared; otherwise token and user restored |
| Auth.AuthService.SetAuth | src/app/core/services/auth.service.ts:202-209 | user and token set, all three entries stored; authenticated with a non-empty token |
| Auth.AuthService.ClearAuth | src/app/core/services/auth.service.ts:211-218 | no user, no token, the three entries removed; not authenticated |
| Auth.AuthService.UpdateSession | src/app/core/services/auth.service.ts:43-61 | no user in the session: no change; otherwise `setAuth` with the derived user |
| Auth.AuthService.OnAuthStateChange | src/app/core/services/auth.service.ts:30-41 | sign-in and refresh with a user set the user, the token and the three stored entries as `setAuth` does; sign-out clears; other events, or no user, change nothing |
| Auth.AuthService.Logout | src/app/core/services/auth.service.ts:156-170 | the local session is cleared whether or not the provider's sign-out fails |
| Validation.PasswordControlIsPolicy | src/app/features/auth/register/register.component.ts:34-38 | a password control is valid exactly when the policy holds; a short password breaks the policy too |
| Validation.PolicyExamples | src/app/features/auth/register/register.component.ts:37 | "Secreto1!" passes; no upper, lower, digit or symbol, too short, or a line break each fail |
| Register.QuietUntilTouched | src/app/features/auth/register/register.component.ts:88-90 | no message under an untouched or unknown control |
| Register.NameMessages | src/app/features/auth/register/register.component.ts:88-94 | the name: required when empty, too short at one character, fine from two |
| Register.EmailMessages | src/app/features/auth/register/register.component.ts:88-93 | the e-mail: required when empty, invalid when the address test fails, fine otherwise |
| Register.PasswordMessages | src/app/features/auth/register/register.component.ts:88-98 | the password: required, too short, the pattern, or fine exactly when the policy holds |
| Register.ConfirmMessages | src/app/features/auth/register/register.component.ts:88-104 | the confirmation: required when empty, a mismatch when it differs, fine otherwise |
| Register.InvalidFormShowsAMessage | src/app/features/auth/register/register.component.ts:88-105 | with every control touched, the form is invalid exactly when some message shows |
| Register.RequestIsValid | src/app/features/auth/register/register.component.ts:31-48 | a valid form has a strong, confirmed password, a name of 2 or more characters and a valid address |
| Register.FailureMessage | src/app/features/auth/register/register.component.ts:70 | the error's own message when it has one, else "Error al registrar usuario" |
| Register.RegisterComponent.constructor | src/app/features/auth/register/register.component.ts:31-40 | an empty form, nothing touched |
| Register.RegisterComponent.GetErrorMessage | src/app/features/auth/register/register.component.ts:88-90 | an untouched control shows nothing |
| Register.RegisterComponent.OnSubmit | src/app/features/auth/register/register.component.ts:50-61 | invalid: everything touched, nothing sent; valid: loading, error cleared, and the request carries a strong, confirmed password |
| Register.RegisterComponent.RegisterFinished | src/app/features/auth/register/register.component.ts:62-74 | loading ends; success navigates; failure shows the message |
| Register.RegisterComponent.TogglePasswordVisibility | src/app/features/auth/register/register.component.ts:107-109 | only the password's visibility flips |
| Register.RegisterComponent.ToggleConfirmPasswordVisibility | src/app/features/auth/register/register.component.ts:111-113 | only the confirmation's visibility flips |
| ResetPassword.QuietUntilTouched | src/app/features/auth/reset-password/reset-password.component.ts:82-84 | no message under an untouched or unknown control |
| ResetPassword.PasswordMessages | src/app/features/auth/reset-password/reset-password.component.ts:82-88 | the password: required, too short, the pattern, or fine exactly when the policy holds |
| ResetPassword.ConfirmMessages | src/app/features/auth/reset-password/reset-password.component.ts:82-94 | the confirmation: required when empty, a mismatch when it differs, fine otherwise |
| ResetPassword.InvalidFormShowsAMessage | src/app/features/auth/reset-password/reset-password.component.ts:82-95 | with both controls touched, the form is invalid exactly when a message shows |
| ResetPassword.FailureMessage | src/app/features/auth/reset-password/reset-password.component.ts:67 | the error's own message when it has one, else "Error al actualizar la contraseña" |
| ResetPassword.ResetPasswordComponent.constructor | src/app/features/auth/reset-password/reset-password.component.ts:24-41 | an empty form, nothing touched, not submitted |
| ResetPassword.ResetPasswordComponent.GetErrorMessage | src/app/features/auth/reset-password/reset-password.component.ts:82-84 | an untouched control shows nothing |
| ResetPassword.ResetPasswordComponent.OnSubmit | src/app/features/auth/reset-password/reset-password.component.ts:49-58 | invalid: both touched, nothing sent; valid: loading, error cleared, and a strong, confirmed password is sent |
| ResetPassword.ResetPasswordComponent.UpdateFinished | src/app/features/auth/reset-password/reset-password.component.ts:58-71 | loading ends; success marks the form submitted and asks for the success toast; failure shows the message |
| ResetPassword.ResetPasswordComponent.TogglePasswordVisibility | src/app/features/auth/reset-password/reset-password.component.ts:74-76 | only the password's visibility flips |
| ResetPassword.ResetPasswordComponent.ToggleConfirmPasswordVisibility | src/app/features/auth/reset-password/reset-password.component.ts:78-80 | only the confirmation's visibility flips |
| Strings.Split | src/app/core/services/language.service.ts:183 | `String.prototype.split` on one character: at least one piece, none holding the separator, a single piece exactly when the separator is absent |
| Strings.SplitHead | src/app/core/services/auth.service.ts:49 | the first piece is the prefix before the first separator |
| Strings.SplitJoin | src/app/core/services/export.service.ts:30-33 | splitting a join gives back the pieces exactly when no piece holds the separator |
| Strings.ToUpper | src/app/features/dashboard/components/portfolio-distribution/portfolio-distribution.component.ts:97 | maps `a`–`z` to `A`–`Z`, keeps every other character and the length, and leaves no ASCII lower-case letter |
| Strings.SortedUnique | src/app/core/services/market.service.ts:22 | two sorted arrangements of the same multiset are equal, so the key depends only on which ids are asked for |

## Left out

- **Outside services.** The hosted backend, RxJS streams, timers, the DOM
  and file downloads are not modelled. A backend answer is an input to the
  method that receives it.
- **Numbers.**
  - JavaScript numbers are modelled as `real`. Rounding, `NaN` and the
    infinities are not modelled.
  - `toFixed`, `toString` and `toLocaleString` are formatter parameters,
    about which nothing is assumed.
  - Date parsing and formatting are also parameters, so time zones and DST
    are not modelled.
- Strings.StrLe: compares code points, while JavaScript's default `sort`
  compares UTF-16 code units. The two orders differ only for characters
  outside the Basic Multilingual Plane.
- Market.SearchAssets: counts code points, while `query.length` counts
  UTF-16 code units. A one-character query outside the Basic Multilingual
  Plane, such as an emoji, is sent by the source and refused by the model.
- Validation.StrongPassword: counts code points, while `Validators.minLength`
  and the pattern's `.{8,}` count UTF-16 code units. A password with
  characters outside the Basic Multilingual Plane, such as emoji, can be
  long enough in the source and too short in the model.
- Strings.ToUpper: maps only the ASCII letters `a`–`z`. JavaScript
  `toUpperCase` also maps other letters (`é` to `É`) and can change the
  length (`ß` to `SS`); the model does not capture that, so
  PortfolioDistribution.Labels is ASCII-only too.
- Alerts.AlertService.CheckAlerts: deactivates each fired alert at once,
  through Alerts.AlertService.ToggleAlertStatus. The source applies the
  deactivation only when the backend answers the update (whatever it
  answers). So a second `checkAlerts` for the same asset before that answer,
  as with two holdings of one asset in one dashboard pass, fires the alert
  again and writes a second notification row in the source. The model does
  not capture that window. Alerts.DeactivatedNeverRetrigger holds from the
  moment the update is applied.
- Alerts.AlertService.ToggleAlertStatus: applied at once rather than when
  the update answers; see the CheckAlerts line.
- **Alias of the sorted id array.** `getMarketAssets` sorts the caller's array
  in place. The model sorts an `array` it is given. It does not model the
  stream keeping hold of the array, so no aliasing is modelled.
- **Translation.**
  - The dictionaries are explicit objects. A key that names a JavaScript
    prototype member (`constructor`, `toString`) is not modelled.
  - Indexing into a string value part-way through a `translate` walk is not
    modelled either.
- Market.DemoPrice: returns 100 for every id missing from the table. The
  source's `basePrices[id] || 100` gives an inherited function for an id
  such as `constructor`; that is not modelled.
- GoalProgress.ProgressPercentage: requires positive goal targets, because
  a zero target gives `NaN` or an infinity in the source.
- WhatIf.WhatIfCalculator.Calculate: requires a positive first historical
  price. The source divides by it, and a zero price gives an infinite
  quantity.
- WhatIf.ScenarioMeaning: requires a positive amount and a positive start
  price, for the same reason.
- Auth.SessionSurvivesRestart: requires that `parse` gives back the stored user.
  The source's `JSON.parse(JSON.stringify(user))` returns `createdAt` as a
  string rather than a `Date`, so the restored user differs from the stored
  one in that field; the model states the round trip only under that
  assumption.
- **Non-numeric form text.** A non-numeric target-price text in the alert
  modal is modelled as `Blank`, the empty value. `isNaN` on other text is not
  modelled.
- **Alert modal outcome.** A successful `addAlert` without a user ends in
  `of(null)`, so the modal still reports success. A backend error result
  stays within the backend's answer. Neither is modelled: the modal's outcome
  is the `failed` flag.
- **Portfolio service.**
  - `removeAsset` and the `loadPortfolio` that follows `addAsset` are backend
    round trips and are not modelled.
  - `addAsset` is modelled up to the record it sends.
- **Auth service.**
  - `login`, `register`, `loginWithProvider`, `refreshToken` and
    `recoverSession` only forward provider answers to `updateSession`, which
    is modelled. The same holds for the register component's
    `loginWithProvider`.
  - A stored user entry that parses to `null` is not modelled.
    `JSON.parse` is the parameter `parse`, which either gives a user or
    fails.
- **Missing `updatePassword`.** The password-reset component calls
  `authService.updatePassword`, which `auth.service.ts` does not define. Its
  answer is an input to `UpdateFinished`.
- **E-mail validator.** The form library's `Validators.email` pattern is the
  parameter `isEmail`.
- Register.RegisterComponent.OnSubmit: the request's e-mail is not stated to
  satisfy `isEmail`. `Register.RequestIsValid` states it for the same form.
- **Behaviour of the source that the lemmas record.**
  - `markAsRead` lowers the unread counter even when the notification was
    already read (`Notifications.MarkAsReadCanDrift`).
  - Once the constructor's effect has stored a theme, the system-preference
    listener never changes anything (`Theme.ThemeService.OnSystemChange`).

  Both are kept as the source has them.
