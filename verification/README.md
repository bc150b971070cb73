# Wedding Asset Tracker — verified model of the valuation engine and its aggregations

The Wedding Asset Tracker records gifts received at a wedding: gold coins, bracelets and gram
gold, Turkish lira, dollars and euros. Each gift comes from a donor, and a donor belongs to the
groom's side, the bride's side, both, or neither. This project models in Dafny the parts of the
application that compute something, and proves what they promise:

- **the valuation engine** (`Valuation`). It holds the karat table and the historical price
  lookups ("the exact day's quote, else the latest earlier quote"). It also holds the per-type
  formulas, each with its own failure policy. One policy throws for the quarter-based coins and
  weighed gold. Another falls back to a fixed rate for dollars and euros. A third swallows errors
  into 0 for Reşat and Cumhuriyet coins.
  The engine is modelled twice. `AssetValue` is a function with one formula per type.
  `CalculateAssetValue` is a method that follows the source's `unitValue` assignments, early
  returns and caught lookups. The method is proved equal to the function.
- **portfolio arithmetic** (`Portfolio`): the current value as a fold over per-asset
  contributions, and the change amount, percentage and profit flag.
- **the classification tables** (`Types`, `Constants`): the asset-type enum, its display names
  and the three category lists.
- **the dashboard aggregation** (`Dashboard`): the total, the side distribution, the grouping by
  type sorted by total value, and the three most recent gifts.
- **the asset summary** (`AssetSummary`): rows per type with count, initial and current value and
  change, sorted by current value, and the totals over the rows.
- **the two forms**: the one-step new-record page (`NewRecordForm`) and the asset edit form
  (`AssetForm`). They share the field-reset rule and JavaScript truthiness (`FormFields`). Both
  are classes whose methods update the page state.
- **the value chart series** (`ValueChart`), **the donor lists** (`DonorGroups`) and **the
  request middleware's redirect decision** (`Middleware`).

Supporting modules:
- `Wrappers` (Option and Result).
- `Sums`: sums, folds, per-key sums and counts, with their lemmas.
- `Sorting`: the library sort, as a stable insertion sort on sequences with a sortedness and
  permutation contract.

Modelling conventions:
- Money is an exact `real`.
- A calendar day is an `int`.
- A price table is a sequence of `(day, bid)` quotes.
- "Today" and the session token are parameters.
- JavaScript truthiness of an optional number is modelled explicitly: absent or zero is falsy.

Failure policies and edge cases of the valuation code:
- The USD/EUR rate lookup catches its own failure and falls back to the fixed rate 33 for
  dollars and 36 for euros (`Valuation.ForeignCurrencyNeverFails`,
  `Valuation.DollarsWithoutRateUseFixedRate`).
- A Reşat or Cumhuriyet coin with no quote on or before the day is valued 0, not an error
  (`Valuation.GramCoinsValue`).
- The Reşat and Cumhuriyet lookups go straight to the latest quote not after the day, with no
  exact-day query first. With one quote per day this gives the same price as the exact-day-first
  lookup (`Valuation.FindPriceIsLatestQuote`).
- `GRAM_ALTIN_22K` has no branch in the valuation switch and is worth 0.

Where two files of the application disagree, each is modelled as written:
- For a bracelet or gram gold without a weight, the summary counts the current value as 0. The
  portfolio total counts it by quantity instead. `AssetSummary.CurrentValueAgainstPortfolio`
  states the exact difference.
- The summary's display-name table is keyed by `RESAT`, which is not an enum value. The half,
  Reşat, Cumhuriyet and 22-karat coins are therefore shown by their raw enum string
  (`AssetSummary.DisplayNames`).

## Model

| member | source | states |
|---|---|---|
| Types.EnumIsClosed | types/index.ts:2-15 | the enum has exactly twelve members, each listed once, and distinct members have distinct string values |
| Constants.AssetTypeName | lib/constants.ts:4-17 | every asset type has a non-empty display name |
| Constants.DisplayNamesDistinct | lib/constants.ts:4-17 | no two asset types share a display name |
| Constants.CategoriesPartitionAssetTypes | lib/constants.ts:20-41 | the gram-required, currency and gold-coin lists cover the enum, are pairwise disjoint, have no repeats and have sizes 3, 3 and 6 (twelve in total) |
| Constants.KnownCategoryMembers | lib/constants.ts:20-31 | bracelet and gram gold are gram-required; lira, dollar and euro are currencies |
| Portfolio.ChangeMetrics | lib/portfolio.ts:50-59 | change = current − initial; profit iff current ≥ initial; percentage is 0 unless the initial total is positive, and otherwise satisfies percentage × initial = change × 100 and has the sign of the profit flag |
| Portfolio.ContributionRule | lib/portfolio.ts:18-34 | weighed gold with a non-zero weight contributes unit price × grams; every other asset, weighed gold without a weight included, contributes unit price × (quantity, or 1 if absent or zero); a missing or zero unit price contributes 0 |
| Portfolio.CurrentValueIsAdditive | lib/portfolio.ts:17-35 | the current value of no assets is 0, and the current value of a concatenation is the sum of the parts' current values |
| Portfolio.PortfolioChangeSpec | lib/portfolio.ts:42-60 | the portfolio change is the sum of contributions minus the sum of initial values; profit iff the initial sum is at most the current sum; percentage is 0 when the initial sum is not positive |
| Valuation.GoldValueByKarat | app/api/assets/route.ts:97-105 | for a non-negative base the karat-adjusted value lies between 0 and the base, and it equals the base exactly for 24 karat (or a zero base) |
| Valuation.KaratTable | app/api/assets/route.ts:97-105 | 24 → base, 22 → 0.92, 18 → 0.75, 14 → 0.58 times the base, and any other karat is priced as 18 |
| Valuation.QuoteOn | app/api/assets/route.ts:122-126 | the exact-day query finds a bid iff the table has a quote on that day, and the bid it finds is quoted on that day |
| Valuation.LatestQuoteAtOrBefore | app/api/assets/route.ts:128-135 | the "latest not after" query finds a quote iff one exists on or before the day, and the quote it finds is on the latest quoted day not after it |
| Valuation.FindPriceSpec | app/api/assets/route.ts:117-143 | the two-step lookup fails iff nothing is quoted on or before the day; it returns the exact day's quote when there is one, and otherwise the bid of a quote on the latest earlier quoted day (never a later one) |
| Valuation.FindPriceIsLatestQuote | app/api/assets/route.ts:289-312 | with at most one quote per day, the two-step lookup gives the same bid as the single "latest not after" query |
| Valuation.GetCeyrekAltinPrice | app/api/assets/route.ts:117-143 | the quarter-gold helper succeeds iff a quote exists on or before the day, returns the two-step lookup's bid, and otherwise fails with the quarter-gold error |
| Valuation.GetExchangeRate | app/api/assets/route.ts:145-190 | the rate helper returns the two-step lookup's result and finds nothing iff nothing is quoted on or before the day |
| Valuation.CalculateAssetValue | app/api/assets/route.ts:107-342 | the imperative valuation (branch assignments, early returns of 0, caught lookups) computes exactly the per-type formula `AssetValue` |
| Valuation.QuarterCoinsScaleTheQuarterQuote | app/api/assets/route.ts:192-226 | with a date, the quarter coin succeeds iff a quote exists and equals the lookup's bid; the half, full and "beşi bir yerde" coins are 2, 4 and 20 times it, or fail with the same error; quantity, grams and carat play no part |
| Valuation.UndatedCoins | app/api/assets/route.ts:192-226 | without a date the full coin is 15000 and "beşi bir yerde" 35000, while the quarter, half, Reşat and Cumhuriyet coins are 0 |
| Valuation.WeighedGoldValue | app/api/assets/route.ts:228-258 | bracelet and gram gold are 0 when grams, carat or the date is missing (or the weight or karat is zero); otherwise grams × karat-adjusted gram-gold quote, or the gram-gold error when nothing is quoted |
| Valuation.TurkishLiraIsItsQuantity | app/api/assets/route.ts:259-262 | lira is worth its quantity (1 when absent), with no date or table needed |
| Valuation.ForeignCurrencyNeverFails | app/api/assets/route.ts:263-288 | dollars and euros never fail; 0 for a zero quantity or no date; otherwise quantity × the day's rate, or × 33 / × 36 when no rate is quoted |
| Valuation.GramCoinsValue | app/api/assets/route.ts:289-336 | Reşat and Cumhuriyet coins never fail; they are the latest gram-gold quote not after the day times 6.60 × 1.025 or 6.614 × 1.045, and 0 without a date or a quote |
| Valuation.UnpricedTypeIsZero | app/api/assets/route.ts:337-341 | the 22-karat gram coin, which has no branch, is worth 0 |
| Valuation.FailuresAreMissingQuotes | app/api/assets/route.ts:192-258 | a valuation fails iff the gift is a dated quarter-based coin with no quarter-gold quote on or before its day, or dated weighed gold with weight and karat and no gram-gold quote on or before its day |
| Valuation.ValueIsNonNegative | app/api/assets/route.ts:192-341 | with non-negative quotes, quantity and weight, a successful valuation is never negative |
| Valuation.FullCoinFallsBackToPriorDay | app/api/assets/route.ts:200-209 | a full coin dated a day without a quote is priced from the previous quoted day: 4 × 3000 = 12000 |
| Valuation.BraceletOfTenGrams | app/api/assets/route.ts:228-258 | a 10 g, 22-karat bracelet with gram gold at 2200 is worth 20240 |
| Valuation.BraceletWithoutKarat | app/api/assets/route.ts:228-230 | a bracelet with a weight but no karat is worth 0 |
| Valuation.DollarsWithoutRateUseFixedRate | app/api/assets/route.ts:263-275 | 100 dollars with no rate on or before the day are valued at the fixed 33, giving 3300 |
| Dashboard.FindDonor | app/kontrol-paneli/page.tsx:114 | the lookup finds nothing iff no donor has the id; otherwise it returns the first donor with that id |
| Dashboard.SideDistribution | app/kontrol-paneli/page.tsx:107-124 | the loop's three buckets are the initial values of the assets whose donor is on both sides, the groom's side only and the bride's side only; assets with no donor or a donor on neither side are in no bucket |
| Dashboard.SideBucketsPartitionTotal | app/kontrol-paneli/page.tsx:101-124 | groom + bride + both + the unbooked remainder equals the total initial value |
| Dashboard.DisplaySideValues | app/kontrol-paneli/page.tsx:127-128 | the two displayed sides add up to groom + bride + both, and differ by exactly groom − bride |
| Dashboard.GroupByType | app/kontrol-paneli/page.tsx:131-142 | the map loop leaves one entry per type present, with the type's asset count (positive) and its initial-value sum, absent types having count and sum 0; its key order is `FirstKeys` of the assets, the order in which the types are first met |
| Dashboard.CollectTypeGroups | app/kontrol-paneli/page.tsx:131-144 | the map's values form a type summary: one row per type present, each type once, with its count and total; the rows' types are `FirstKeys` of the assets, in first-met order |
| Sums.FirstKeysSpec | app/kontrol-paneli/page.tsx:131-144 | the keys of a map filled in a loop, in insertion order: each key once, a key is listed iff some element carries it, and a key listed before another was met before the other's first occurrence |
| Dashboard.SummaryReordered | app/kontrol-paneli/page.tsx:144-145 | any permutation of a type summary is a type summary |
| Dashboard.AssetTypeGroups | app/kontrol-paneli/page.tsx:131-145 | the sorted groups are a type summary ordered by total value, largest first |
| Dashboard.TypeGroupsAddUp | app/kontrol-paneli/page.tsx:101-142 | for any type summary, the group counts add up to the number of assets and the group totals to the total value |
| Dashboard.RecentAssets | app/kontrol-paneli/page.tsx:148-154 | the recent list is the first min(3, n) assets, in their original order |
| Sorting.SortBy | app/kontrol-paneli/page.tsx:144-145 | the library sort returns a permutation of its input sorted by the key (both summaries sort by a negated key, so largest first) |
| AssetSummary.DisplayNames | components/asset/asset-summary.tsx:16-26 | a type is shown by its raw key iff it is the half, Reşat, Cumhuriyet or 22-karat coin; the `RESAT` entry matches no type |
| AssetSummary.CurrentValueAgainstPortfolio | components/asset/asset-summary.tsx:83-96 | the summary values an asset as the portfolio does, except weighed gold without a weight: the summary gives 0, the portfolio unit × (quantity or 1) |
| AssetSummary.AddAsset | components/asset/asset-summary.tsx:76-98 | a row absorbs an asset by adding quantity-or-1 to the count, the initial value, and the type-dependent current value |
| AssetSummary.RowsAfterSpec | components/asset/asset-summary.tsx:56-99 | after the first loop there is one row per typed type present, each labelled with its display name and holding its type's count, initial and current sums; untyped assets are skipped; the key order is `FirstKeys` of the assets' types, the order in which the typed types are first met |
| AssetSummary.GroupByType | components/asset/asset-summary.tsx:53-99 | the imperative map loop computes exactly the rows of `RowsAfter` |
| AssetSummary.ApplyChangeMetrics | components/asset/asset-summary.tsx:102-108 | the second loop keeps the keys and sets every row's change from its own initial and current values |
| AssetSummary.CollectStats | components/asset/asset-summary.tsx:52-111 | the map's values form a stats summary: one row per typed type, each once, with count, initial and current sums and the change metrics; row m is for the m-th type of `FirstKeys`, the first-met order |
| AssetSummary.StatsReordered | components/asset/asset-summary.tsx:111-112 | any permutation of a stats summary is a stats summary |
| AssetSummary.AssetStats | components/asset/asset-summary.tsx:52-113 | the sorted rows are a stats summary ordered by current value, largest first |
| AssetSummary.TotalsCoverTypedAssets | components/asset/asset-summary.tsx:116-131 | the totals over the rows equal the initial and current sums over all typed assets, with the same change rule, and the row counts sum to the quantity-or-1 of the typed assets |
| FormFields.ResetForType | app/varliklar/yeni-kayit/page.tsx:253-270 | after choosing a type, the amount survives only for a currency and weight/karat only for weighed gold; the fields the type shows are kept unchanged |
| FormFields.ResetIsIdempotent | components/asset/asset-form.tsx:43-54 | no type shows both the money and the gold inputs, and resetting twice for a type is resetting once |
| NewRecordForm.Message | app/varliklar/yeni-kayit/page.tsx:48-80 | every validation failure has a non-empty message |
| NewRecordForm.LeadingWhitespace | app/varliklar/yeni-kayit/page.tsx:50 | the leading run that `trim` removes is all white space and is followed by a non-space |
| NewRecordForm.TrailingWhitespaceStart | app/varliklar/yeni-kayit/page.tsx:50 | the trailing run that `trim` removes is all white space and is preceded by a non-space |
| NewRecordForm.TrimmedEmptyIffBlank | app/varliklar/yeni-kayit/page.tsx:50 | a name trims to empty iff it is made of white space only (the empty name included) |
| NewRecordForm.ValidationError | app/varliklar/yeni-kayit/page.tsx:48-80 | no error iff the name is not blank, a side is chosen, a currency has a non-zero amount, and weighed gold has non-zero grams and karat |
| NewRecordForm.ValidationOrder | app/varliklar/yeni-kayit/page.tsx:48-80 | a blank name is reported whatever else is wrong; each later error is reported iff every earlier check passes and its own fails; grams are reported before karat |
| NewRecordForm.NewRecordPage.constructor | app/varliklar/yeni-kayit/page.tsx:30-42 | the initial state: empty name, no side, quarter gold, quantity 1, no amount, weight or karat, and the wedding date (else today) |
| NewRecordForm.NewRecordPage.ValidateForm | app/varliklar/yeni-kayit/page.tsx:48-80 | true iff no check fails; on failure the shown error is the first failing check; on success the error is untouched |
| NewRecordForm.NewRecordPage.HandleSubmit | app/varliklar/yeni-kayit/page.tsx:82-128 | nothing is sent when validation fails; otherwise the error is cleared and the donor and asset requests carry the fields as entered |
| NewRecordForm.NewRecordPage.SelectAssetType | app/varliklar/yeni-kayit/page.tsx:253-270 | the new type is stored and the fields it does not show are cleared |
| AssetForm.Message | components/asset/asset-form.tsx:61-83 | every submit failure has a non-empty message |
| AssetForm.Truthy | components/asset/asset-form.tsx:28-32 | `x || undefined` keeps a value iff it is present and non-zero |
| AssetForm.SubmitError | components/asset/asset-form.tsx:56-97 | no error iff a donor is chosen, weighed gold has non-zero grams and karat, a currency has a non-zero amount, and the initial value is positive; a missing donor is reported first |
| AssetForm.SubmitErrorOrder | components/asset/asset-form.tsx:60-82 | the checks run in the form's order and stop at the first failure: the grams-and-karat error iff a donor is chosen and weighed gold lacks a non-zero weight or karat; the amount error iff, additionally, that check passed and a currency lacks a non-zero amount; the initial-value error iff both passed and the initial value is not positive |
| AssetForm.AssetFormState.constructor | components/asset/asset-form.tsx:27-54 | each field is seeded from the initial data or its default, then the reset for the initial type is applied |
| AssetForm.AssetFormState.ResetFields | components/asset/asset-form.tsx:43-54 | the reset effect clears exactly the fields the current type does not show |
| AssetForm.AssetFormState.SetType | components/asset/asset-form.tsx:43-54 | choosing a type stores it and resets the fields only if the type changed |
| AssetForm.AssetFormState.HandleSubmit | components/asset/asset-form.tsx:56-97 | the error ends as `SubmitError` of the state, the first failing check in the order `SubmitErrorOrder` states (none if all pass), and the submitted data exists iff all checks pass and equals the current fields |
| AssetForm.ValidSubmissionShape | components/asset/asset-form.tsx:43-83 | a form that was reset for its type and passes validation submits weight and karat only for weighed gold, an amount only for a currency, and none of them otherwise |
| ValueChart.HasPointOn | components/asset/value-chart.tsx:56 | true iff some point is dated that day |
| ValueChart.BuildChartData | components/asset/value-chart.tsx:48-74 | the effect builds exactly `ChartSeries`, and the labels and values have its length and are index-aligned with it |
| ValueChart.ChartSeriesKeepsHistory | components/asset/value-chart.tsx:50-66 | the series keeps every history point, sorted by date, at offset 0 or 1, and adds at most two points |
| ValueChart.ChartSeriesShape | components/asset/value-chart.tsx:50-66 | the series has exactly as many points as the history, plus one exactly when the history has no point on the purchase day (then the purchase point leads), plus one exactly when a current value differs from the initial value and neither the history nor the added purchase point is dated today (then today's point ends it); the sorted history sits whole at offset 1 or 0 accordingly |
| ValueChart.ChartSeriesPlotsDays | components/asset/value-chart.tsx:54-66 | the purchase day is always plotted; today is plotted when the current value is present and differs from the initial value; every added point is dated the purchase day or today |
| ValueChart.ReceivedTodayHasOnePoint | components/asset/value-chart.tsx:54-66 | an asset received today with no history gets the purchase point alone |
| DonorGroups.Filter | app/bagiscilar/page.tsx:40-42 | a filter keeps every element that satisfies the predicate, as often as it occurs, and nothing else |
| DonorGroups.FilterConcat | app/bagiscilar/page.tsx:40-42 | filtering a concatenation filters each part in turn, so the original order is kept |
| DonorGroups.DonorListsSpec | app/bagiscilar/page.tsx:40-42 | each list holds exactly the donors with its flags; a donor on both sides is on both lists; every donor is on some list; "other" shares no donor with the side lists |
| DonorGroups.ListSizes | app/bagiscilar/page.tsx:40-42 | the three lists together are exactly as long as the donor list plus the donors on both sides, who are listed twice; "other" is no longer than the donor list |
| Middleware.DecisionSpec | middleware.ts:5-24 | "/" always passes; a signed-in user is never sent to login and a visitor never to the dashboard; a visitor's path beginning with "/auth" or "/_next" passes (raw prefix, "/authx" included); each redirect target passes, so redirects never chain |
| Middleware.DecisionCases | middleware.ts:7-21 | signed in, exactly the login and sign-up pages are redirected to the dashboard; signed out, exactly the paths other than "/", "/auth…" and "/_next…" are redirected to login |

## Left out

- Database access: every price table query becomes a lookup over an in-memory sequence of quotes. Session checks, the wedding and donor queries and the asset creation around the valuation are left out.
- The price-update script: it fetches over the network and writes to the database.
- NextAuth: `getToken` becomes the boolean `hasToken`. The middleware's `matcher` pattern (middleware.ts:27-31) belongs to the framework and is not modelled.
- IEEE floating point: money is an exact `real`. Rounding of `6.60 * 1.025`, `parseFloat` of decimal bids and NaN inputs are not modelled.
- Dates: ISO date strings, `toISOString().split('T')[0]` and time zones become integer day numbers. "Today" is a parameter.
- Chart labels: `toLocaleDateString` becomes the day number itself.
- The valuation's `quantity` parameter: `None` stands for `undefined` and takes the default 1. A JSON `null` quantity, which JavaScript would not replace by the default, is not distinguished.
- Form inputs: the forms are modelled over the enum. The type select of both forms also offers a `RESAT` option, which is not an enum value, and choosing it is not modelled. Parsing text inputs into numbers (`parseFloat`, `parseInt`) is left out too.
- The forms' `isSubmitting` flag, `fetch`, router navigation, and server error messages after a request are left out. The new-record page's `HandleSubmit` stops at the two requests it would send.
- Rendering, formatting (`Intl.NumberFormat`, `toFixed`, percentage signs) and Chart.js options are left out.
- Sorting.SortBy: the in-place `Array.prototype.sort` is a stable sort function on sequences. Its contract states sortedness and permutation, but not stability, and no array is updated in place.
- The dashboard's `calculatePortfolioChange` call is the `Portfolio` function. It is not modelled again inside `Dashboard`.
- Dashboard.RecentAssets: the date column is the day number, not the ISO string.
