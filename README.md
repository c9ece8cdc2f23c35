# ArgiTrade core, modelled in Dafny

ArgiTrade is a farming marketplace. This project models the parts of it that compute something:

- **Price trends.** The price-trend aggregator behind `GET /api/price-prediction` groups the
  price records by crop and orders each group by (year, month). It measures the change from the
  oldest to the newest price and derives a percentage, a projection, a category and a demand tier.
  It then ranks the crops by profit and by demand. The MongoDB controller does the same on
  documents keyed by `crop_name`.
- **The price-prediction script.** It builds a seed history of 66 months for seven crops and
  projects each crop over the next months. It measures the change against the crop's latest price
  and ranks by profit and by a three-tier demand key.
- **The crop suggester.** It scores seven crop profiles with seven range checks each. The score
  picks a suitability tier, and the suggestions are ranked by tier, then by profit margin, and
  cut to five.
- **The in-memory store (`MemStorage`).** It keeps seven tables of records with id counters,
  listings in insertion order, and create, update and delete operations.
- **The share purchase.** A purchase looks the investment up, refuses unknown ids and requests
  for too many shares, decrements the available shares and records the purchase. The listing of
  a user's purchases comes with its user-id check.
- **The marketplace search.** On the server it is the in-memory product filter and the MongoDB
  query object. On the client it is the query string, the display defaults, and the search, sort
  and pages of the product list.
- **The investment list on the client.** The hook fills in farmer details; the list searches,
  sorts and pages the investments.
- **The crop price table and the shared pager.** The table filters by category and pages through
  the crops. The pager chooses the page buttons, writes the "Showing x to y of n results" line and
  disables its buttons at the ends.
- **The seed data.** `generateCropPriceData` and `mockPriceData` produce it.
- **The form validator.** It checks the crop-suggestion form.

Modules follow the program:

| file | module | covers |
|---|---|---|
| `common.dfy` | `Common` | Option/Result, `Array.prototype.filter`, ASCII case, substring search, display initials |
| `sorting.dfy` | `Sorting` | a stable insertion sort, and V8's `Array.prototype.sort` for fewer than 64 elements |
| `paging.dfy` | `Paging` | `Math.ceil(n / k)` and `slice` pages |
| `schema.dfy` | `Schema` | the record types and the crop-suggestion form schema |
| `price_trend.dfy` | `PriceTrend` | the aggregator of `server/routes.ts` |
| `price_docs.dfy`, `crop_prediction_controller.dfy` | `PriceDocs`, `CropPredictionController` | the MongoDB variant |
| `seed_calendar.dfy` | `SeedCalendar` | the months the seed generators walk through |
| `price_prediction_script.dfy` | `PricePredictionScript` | `price_prediction.py` |
| `crop_suggestion.dfy` | `CropSuggestion` | `crop_suggestion.py` |
| `storage.dfy` | `Storage` | `MemStorage` |
| `investment_controller.dfy` | `InvestmentController` | the purchase and user-investment handlers |
| `marketplace.dfy` | `Marketplace` | the product search on the server |
| `marketplace_client.dfy` | `MarketplaceClient` | `useMarketplace` and `ProductList` |
| `investment_client.dfy` | `InvestmentClient` | `useInvestments` and `InvestmentList` |
| `prediction_table.dfy` | `PredictionTable` | `PredictionTable` |
| `pagination.dfy` | `Pagination` | `Pagination` |
| `mock_data.dfy` | `MockData` | the seed price records |

Some things the source takes from outside are parameters of the model:

- `Math.random`, `np.random` and the sine curves;
- the fitted random forest;
- `Number(s)` parsing and `toString` formatting;
- the time of a request.

Sorts take a JavaScript-style comparator (negative, zero or positive). Two sorts are modelled:

- `Sorting.EngineSort` is what V8's `Array.prototype.sort` does on fewer than 64 elements. It
  takes the leading run (strictly descending runs are reversed), then binary-inserts the rest
  after all equal elements. It models the server's rankings (`server/routes.ts` and the MongoDB
  controller). For a comparator consistent on the list the result is sorted, and for any
  comparator it keeps every order the comparator forces whichever way the engine meets the
  elements (`Sorting.EngineSortOrdered`).
- `Sorting.SortBy` is a stable insertion sort (`Sorting.SortByStable`). It models Python's `sorted`
  in both scripts, the sort of each crop's records by year and month, and the client's sorts, whose
  comparators are consistent, so any stable sort gives the same list.

Every ranking is also proved by its order property, a permutation (multiset) property and the cut
to five.

Where the code departs from what its own names, comments and the Python script lead one to
expect, the model follows the code:

- The script measures the change against the crop's **last row** (`iloc[-1]`), not its oldest.
- The server's demand comparator does not order Medium before Low (see Findings).
- The product list resets its page on a new search or sort. The investment list and the price
  table do not.

## Model

| member | source | states |
|---|---|---|
| Common.Filter | client/src/components/farm-hub/marketplace/ProductList.tsx:31-34 | `filter` keeps exactly the elements that pass, in order, and never lengthens the list |
| Common.Includes | client/src/components/farm-hub/marketplace/ProductList.tsx:32-33 | `includes` holds exactly when the needle occurs at some position of the haystack |
| Common.ToLower | client/src/components/farm-hub/marketplace/ProductList.tsx:32 | `toLowerCase` keeps the length and lower-cases each (ASCII) character |
| Common.ToUpper | client/src/hooks/useMarketplace.ts:52 | `toUpperCase` keeps the length and upper-cases each (ASCII) character |
| Common.Prefix | client/src/hooks/useMarketplace.ts:52 | `substring(0, n)` is the first min(n, length) characters |
| Common.Initials | client/src/hooks/useInvestments.ts:28 | `substring(0, 2).toUpperCase()`: min(2, length) characters, each the upper case of the name's character |
| Common.FindFirst | server/storage.ts:112-114 | `find` returns the first element that passes, or none when no element passes |
| Common.Collect | server/routes.ts:338-365 | mapping with a step that may fail: one result per input in order, or the first failure |
| Sorting.SortBy | server/services/pythonScripts/price_prediction.py:180-186 | `sorted` returns a permutation of its input of the same length |
| Sorting.SortByIsSorted | server/services/pythonScripts/crop_suggestion.py:185-191 | with a comparator consistent on the list, the result is sorted by it |
| Sorting.TopOfSorted | server/services/pythonScripts/price_prediction.py:188-190 | `[:5]` of a sorted list: no element left out ranks above one kept |
| Sorting.SortedTop | server/services/pythonScripts/crop_suggestion.py:185-193 | the first k of a sort by a consistent comparator: k elements drawn from the input, sorted, none left out ranking above one kept |
| Sorting.SortByKeepsSorted | server/services/pythonScripts/crop_suggestion.py:185-193 | the stable sort leaves a list already sorted by the comparator unchanged |
| Sorting.SortByStable | server/services/pythonScripts/price_prediction.py:180 | stability: with a consistent comparator, the elements that tie with any one element come out in their input order, `reverse=True` included |
| Sorting.Search | server/routes.ts:368 | whatever the comparator answers, the binary search of the engine's insertion stops within its interval, right after an element the pivot need not precede and right before one it must precede |
| Sorting.EngineSort | server/routes.ts:368 | the engine's sort returns a permutation of its input of the same length |
| Sorting.EngineSortOrdered | server/routes.ts:371-376 | if each answer of the comparator on the list is allowed by a transitive relation, the engine's result is ordered by that relation |
| Sorting.EngineSortSorted | server/routes.ts:368 | with a comparator consistent on the list, the engine's result is sorted by it |
| Sorting.EngineSortedTop | server/routes.ts:368-379 | the first k of the engine's sort by a consistent comparator: k elements drawn from the input, sorted, none left out ranking above one kept |
| Sorting.TopOfOrdered | server/routes.ts:379-380 | the first k of a permutation ordered by a relation: k elements drawn from the input, still ordered, and each kept one related to each one left out |
| Paging.TotalPages | client/src/components/farm-hub/marketplace/ProductList.tsx:51 | `Math.ceil(n / k)`: the fewest pages of k that hold n items |
| Paging.Page | client/src/components/farm-hub/marketplace/ProductList.tsx:52-55 | `slice((p-1)k, pk)` with JavaScript's clamping of negative and large bounds, at most k items |
| Paging.PageWindow | client/src/components/farm-hub/marketplace/ProductList.tsx:52-55 | page p is the window [(p-1)k, min(pk, n)) when it starts inside the list, and empty when it starts past it |
| Paging.FirstPage | client/src/components/farm-hub/marketplace/ProductList.tsx:22 | page 1 is the first min(k, n) items |
| Paging.PageBeyondEnd | client/src/components/farm-hub/agri-trade/InvestmentList.tsx:43-47 | a page past the last page, or page 0, shows nothing |
| Paging.PagesPartition | client/src/components/farm-hub/agri-trade/InvestmentList.tsx:43-47 | pages 1..totalPages laid end to end give back the whole list |
| Schema.Flag | shared/schema.ts:127-134 | a field is reported exactly when its own constraint fails |
| Schema.FormErrors | shared/schema.ts:127-134 | every failing field is reported, and only failing ones |
| Schema.ValidateForm | shared/schema.ts:127-134 | accepted exactly when district and soil type are non-empty, 0 <= pH <= 14 and each nutrient >= 0; accepted forms come back unchanged; a refusal lists the failing fields |
| PriceTrend.DetermineDemand | server/routes.ts:386-390 | High above 15, Medium above 5 up to 15, Low at 5 and below, each as an if-and-only-if |
| PriceTrend.CropCategorySpec | server/routes.ts:393-405 | each category is exactly membership in its table; Other exactly when the name is in none |
| PriceTrend.CropNames | server/routes.ts:329-335 | the group keys are every distinct crop name of the input, each once |
| PriceTrend.ByYearMonthSorted | server/routes.ts:342-345 | each group is sorted by (year, month) |
| PriceTrend.Oldest | server/routes.ts:348 | the first record after the sort has the earliest (year, month) of the group |
| PriceTrend.Newest | server/routes.ts:349 | the last record after the sort has the latest (year, month) of the group |
| PriceTrend.TrendOfSpec | server/routes.ts:347-364 | fails exactly on a zero oldest price; otherwise current = newest, change = newest - oldest, percentage * oldest = change * 100, projection * oldest = newest², category and demand from their tables |
| PriceTrend.PercentageSign | server/routes.ts:351 | with a positive oldest price the percentage has the sign of the change |
| PriceTrend.SingleRecordTrend | server/routes.ts:347-364 | a single record gives change 0, projection = price and Low demand |
| PriceTrend.GroupNonEmpty | server/routes.ts:329-335 | every group the reduce creates has a record |
| PriceTrend.ProcessPriceDataAllCrops | server/routes.ts:327-383 | `allCrops` has one trend per distinct crop, in order of first appearance, each from that crop's group; a failure names a crop whose oldest price is zero |
| PriceTrend.TrendInSucceeds | server/routes.ts:338-365 | a crop's trend, when it succeeds, is the trend of its own group |
| PriceTrend.TrendInFails | server/routes.ts:338-365 | a crop's trend fails only on a zero oldest price, naming the crop |
| PriceTrend.ProfitableCropsRanked | server/routes.ts:368-379 | `profitableCrops`: min(5, n) crops of the list, non-increasing percentage, none left out higher than one kept |
| PriceTrend.AsWrittenCompatible | server/routes.ts:371-376 | whichever order the demand comparator allows keeps a High crop ahead of any other and the higher percentage first among High crops; that relation is transitive |
| PriceTrend.EngineSortHighFirst | server/routes.ts:371-376 | the engine's demand sort puts every High crop ahead of every other, High crops in non-increasing percentage |
| PriceTrend.DemandableCropsRanked | server/routes.ts:371-380 | `demandableCrops`: min(5, n) crops of the list, High crops first in non-increasing percentage, and no High crop left out that ranks above a kept one; the order among Medium and Low crops is not promised |
| PriceTrend.DemandTierSplit | server/routes.ts:371-376 | Medium 6 %, Low 0 %, Medium 8 % come back unchanged from the engine's sort, so the Medium tier is split and not in percentage order |
| PriceTrend.DemandComparatorCounterexample | server/routes.ts:371-376 | the comparator answers 1 both ways for a Low and a Medium crop, and leaves the Low one (lower percentage) first |
| PriceTrend.ByDemandTierConsistent | server/services/pythonScripts/price_prediction.py:183-186 | the three-tier key is a consistent comparator |
| PriceTrend.TierOrderMonotone | server/services/pythonScripts/price_prediction.py:183-186 | for trends whose demand matches their percentage, tier order implies percentage order |
| PriceTrend.DemandTierSorted | server/services/pythonScripts/price_prediction.py:183-186 | the three-tier sort orders High before Medium before Low and is non-increasing in percentage |
| PriceTrend.SortedTiersMonotone | server/services/pythonScripts/price_prediction.py:183-186 | any list sorted by the three-tier key is tier-ordered and non-increasing in percentage |
| PriceTrend.TomatoScenario | server/models/PriceData.ts:56-61 | the Tomato example (65.00 in January 2021, 85.00 in June 2023) gives change 20, 2000/65 percent, projection 7225/65, High demand, Vegetable |
| PriceDocs.AsRecords | server/controllers/cropPredictionController.ts:59-65 | renaming `crop_name` keeps every document and its order |
| PriceDocs.DocNamesRenamed | server/controllers/cropPredictionController.ts:59-65 | grouping on `crop_name` gives the same keys as grouping the renamed records |
| PriceDocs.DocsOfRenamed | server/controllers/cropPredictionController.ts:59-65 | and the same groups |
| PriceDocs.DocNamesSpec | server/controllers/cropPredictionController.ts:59-65 | the keys are the distinct crop names and each has a document |
| CropPredictionController.ControllerMatchesAggregator | server/controllers/cropPredictionController.ts:57-113 | the controller's result equals the aggregator's on the renamed documents |
| SeedCalendar.EmittedPosition | server/models/mockData.ts:459-464 | every month the loops emit sits at a position below 66 that gives it back |
| SeedCalendar.SeedWalk | server/models/mockData.ts:459-464 | the i-th emitted month is one the loops emit, at exactly position i |
| SeedCalendar.SeedAscending | server/models/mockData.ts:459-464 | the emitted months strictly increase in (year, month) |
| MockData.GenerateCropPriceData | server/models/mockData.ts:455-492 | 66 records, the i-th being the seed record of the i-th month |
| MockData.SeedRecordsShape | server/models/mockData.ts:455-492 | ids 1..66 in order, month 1..12, year 2018..2023, wpi = 100 + 5(year-2018) + 0.2 month, strictly increasing dates |
| MockData.MockPriceData | server/models/mockData.ts:4-19 | 462 records: record k is record k mod 66 of crop k div 66, with id k mod 66 + 1 and its own random draw for that crop, year and month |
| PricePredictionScript.ClampRainfall | server/services/pythonScripts/price_prediction.py:39-41 | a negative rainfall becomes 5, a non-negative one is kept |
| PricePredictionScript.CropRows | server/services/pythonScripts/price_prediction.py:59-87 | 66 rows per crop |
| PricePredictionScript.History | server/services/pythonScripts/price_prediction.py:20-95 | 66 rows per listed crop |
| PricePredictionScript.AppendCropRows | server/services/pythonScripts/price_prediction.py:61-87 | the year and month loops append exactly the crop's 66 rows |
| PricePredictionScript.LoadHistoricalData | server/services/pythonScripts/price_prediction.py:20-95 | `load_historical_data` returns the history of the seven crops, 462 rows |
| PricePredictionScript.HistoryGroups | server/services/pythonScripts/price_prediction.py:102-106 | in a history of distinct crops, filtering on a crop gives back exactly its own rows |
| PricePredictionScript.SeedHistoryGroups | server/services/pythonScripts/price_prediction.py:102-106 | and so for the seven seed crops |
| PricePredictionScript.HistoryStep | server/services/pythonScripts/price_prediction.py:59-87 | appending a crop's rows adds them to that crop's group and nothing to any other |
| PricePredictionScript.CropRowsAscending | server/services/pythonScripts/price_prediction.py:25-29 | a crop's rows strictly increase in (year, month) |
| PricePredictionScript.FutureMonth | server/services/pythonScripts/price_prediction.py:125-127 | the projected month lies in 1..12 |
| PricePredictionScript.FutureMonthsConsecutive | server/services/pythonScripts/price_prediction.py:124-128 | the i-th projected (year, month) is exactly i months after the latest one |
| PricePredictionScript.FutureWpiFollowsSeed | server/services/pythonScripts/price_prediction.py:135 | the projected WPI follows the seed formula whenever the latest row does |
| PricePredictionScript.FutureRows | server/services/pythonScripts/price_prediction.py:123-137 | one row per projected month |
| PricePredictionScript.FutureFeatures | server/services/pythonScripts/price_prediction.py:123-137 | the loop builds exactly those rows |
| PricePredictionScript.TrendVsLatestFails | server/services/pythonScripts/price_prediction.py:147-148 | the trend fails, naming the crop, exactly when the latest price is zero |
| PricePredictionScript.TrendVsLatestValue | server/services/pythonScripts/price_prediction.py:143-177 | current = latest price, change = prediction - latest, percentage * latest = change * 100, category and demand from their tables; High exactly when the prediction exceeds the latest price by more than 15 percent |
| PricePredictionScript.ScriptTrendInAt | server/services/pythonScripts/price_prediction.py:104-148 | a crop's trend compares the model's mean prediction with the price of its last row |
| PricePredictionScript.PredictCrop | server/services/pythonScripts/price_prediction.py:105-148 | the loop body for one crop computes that crop's trend against its last row |
| PricePredictionScript.PredictCropPrices | server/services/pythonScripts/price_prediction.py:98-192 | the loop over the crops returns the report of the specification function |
| PricePredictionScript.ScriptReportFailure | server/services/pythonScripts/price_prediction.py:117-148 | a failed run names a crop whose last price is zero |
| PricePredictionScript.ScriptReportAllCrops | server/services/pythonScripts/price_prediction.py:98-177 | `allCrops` has one trend per crop in order, each against its last row, each with the demand of its own percentage |
| PricePredictionScript.CollectedTrends | server/services/pythonScripts/price_prediction.py:104-177 | the facts above, for any successful collection |
| PricePredictionScript.ScriptTrendSucceeds | server/services/pythonScripts/price_prediction.py:116-177 | a successful trend is measured against the last row and its demand matches its percentage |
| PricePredictionScript.ScriptTrendFails | server/services/pythonScripts/price_prediction.py:147-148 | a trend fails only on a zero last price |
| PricePredictionScript.ScriptProfitableRanked | server/services/pythonScripts/price_prediction.py:180-190 | `profitableCrops`: min(5, n) crops drawn from the input, in non-increasing percentage, none left out higher than one kept |
| PricePredictionScript.SortByProfitOrdered | server/services/pythonScripts/price_prediction.py:180 | `sorted(..., reverse=True)` by percentage puts the crops in non-increasing percentage |
| PricePredictionScript.ScriptDemandableRanked | server/services/pythonScripts/price_prediction.py:183-190 | `demandableCrops`: min(5, n) crops, High before Medium before Low, non-increasing percentage, none left out higher than one kept |
| PricePredictionScript.DemandTierFixesCounterexample | server/services/pythonScripts/price_prediction.py:183-186 | the three-tier key puts the Medium crop of the counterexample before the Low one |
| CropSuggestion.CountTrue | server/services/pythonScripts/crop_suggestion.py:154 | `sum` of booleans: at most the length, the length exactly when all hold, 0 exactly when none does |
| CropSuggestion.Factors | server/services/pythonScripts/crop_suggestion.py:125-152 | seven factors exactly when `phLevel` and `soilType` are both present; otherwise the KeyError of the first missing one, `phLevel` before `soilType` |
| CropSuggestion.Tier | server/services/pythonScripts/crop_suggestion.py:157-162 | Highly at 6 and up, Moderately at 4..5, Marginally at 3 and below, each as an if-and-only-if |
| CropSuggestion.CheckCropSuitabilitySpec | server/services/pythonScripts/crop_suggestion.py:121-162 | fails exactly when pH or soil type is missing (pH reported first); otherwise the score is in 0..7, the tier is its tier, never "Not Suitable" |
| CropSuggestion.TierMonotone | server/services/pythonScripts/crop_suggestion.py:157-162 | a higher score never gives a worse tier |
| CropSuggestion.DefaultsApply | server/services/pythonScripts/crop_suggestion.py:126-142 | leaving out a defaulted key equals sending 28, 5, 100, 70 or 90 |
| CropSuggestion.BoundariesAccepted | server/services/pythonScripts/crop_suggestion.py:127-146 | the range checks are inclusive and the nutrient differences 50, 40, 50 are accepted |
| CropSuggestion.BoundariesRejected | server/services/pythonScripts/crop_suggestion.py:127-146 | any amount beyond a range end, a soil the crop does not list, or a nutrient difference above 50, 40 or 50 fails that factor |
| CropSuggestion.GetCropSuggestions | server/services/pythonScripts/crop_suggestion.py:165-193 | returns the ranking of the seven built-in profiles |
| CropSuggestion.RankCrops | server/services/pythonScripts/crop_suggestion.py:169-193 | the scoring loop, the sort and the cut return the specified ranking |
| CropSuggestion.ScoreStep | server/services/pythonScripts/crop_suggestion.py:171-182 | one turn of the loop: a failing crop ends the run with its error, otherwise its suggestion is appended |
| CropSuggestion.CollectedAll | server/services/pythonScripts/crop_suggestion.py:185-193 | after the loop the result is the sorted list cut to five |
| CropSuggestion.NoneExcluded | server/services/pythonScripts/crop_suggestion.py:175 | the "Not Suitable" filter removes nothing the scorer produces |
| CropSuggestion.ByTierThenMarginConsistent | server/services/pythonScripts/crop_suggestion.py:187-190 | the sort key is a consistent comparator |
| CropSuggestion.CropSuggestionsSpec | server/services/pythonScripts/crop_suggestion.py:165-193 | fails exactly when there is a crop and pH or soil type is missing; otherwise each crop is scored with its own tier and the result is the best min(5, n) by tier, then margin |
| CropSuggestion.RankedTop | server/services/pythonScripts/crop_suggestion.py:185-193 | the sorted list cut to five is drawn from the suggestions, in order, and nothing left out ranks above anything kept |
| CropSuggestion.InTierOrder | server/services/pythonScripts/crop_suggestion.py:187-190 | a list sorted by the key is in tier order and non-increasing in margin within a tier |
| CropSuggestion.FiveOfSeven | server/services/pythonScripts/crop_suggestion.py:193 | with the seven profiles and pH and soil given, five suggestions come back |
| Storage.InKeyOrderFresh | server/storage.ts:188-193 | inserting under the next counter value appends to the listing |
| Storage.ListedValues | server/storage.ts:172-174 | the listing holds exactly the stored values |
| Storage.InKeyOrderAscending | server/storage.ts:116-121 | a listing comes out in strictly ascending id, so its first match is the earliest inserted |
| Storage.FindFirstLeastId | server/storage.ts:112-114 | `find` over a list ascending by id returns the match with the least id |
| Storage.PatchProduct | server/storage.ts:195-202 | an update never changes the id or the creation time |
| Storage.PatchInvestment | server/storage.ts:228-235 | an update never changes the id or the creation time |
| Storage.ProductPatchLaws | server/storage.ts:195-202 | an empty patch changes nothing and applying a patch twice equals applying it once |
| Storage.SharesPatchOnly | server/routes.ts:304-307 | the purchase's patch changes only `availableShares` |
| Storage.MemStorage.constructor | server/storage.ts:89-105 | empty tables, every counter at 1 |
| Storage.MemStorage.GetUser | server/storage.ts:108-110 | found exactly when the id is stored, and then it is the record stored under that id |
| Storage.MemStorage.UserList | server/storage.ts:113 | the users in insertion order: exactly the stored ones |
| Storage.MemStorage.GetUserByUsername | server/storage.ts:112-114 | a stored user with that name, the earliest inserted (least id) of those that have it; none exactly when no stored user has it |
| Storage.MemStorage.CreateUser | server/storage.ts:116-121 | stores the user under the next id with the current time, bumps the counter, appends to the listing, changes nothing else |
| Storage.MemStorage.PriceDataList | server/storage.ts:124-126 | exactly the stored price records |
| Storage.MemStorage.GetPriceDataByCrop | server/storage.ts:128-130 | exactly the stored records of that crop, as a subsequence of the insertion-order listing |
| Storage.MemStorage.CreatePriceData | server/storage.ts:132-137 | stores the record under the next id, appends it, changes nothing else |
| Storage.MemStorage.RegionalDataList | server/storage.ts:140-142 | exactly the stored regional records |
| Storage.MemStorage.GetRegionalDataByDistrict | server/storage.ts:144-146 | the earliest inserted record of that district, or none exactly when there is none |
| Storage.MemStorage.CreateRegionalData | server/storage.ts:148-153 | stores the record under the next id, appends it, changes nothing else |
| Storage.MemStorage.CropDataList | server/storage.ts:156-158 | exactly the stored crop records |
| Storage.MemStorage.GetCropDataByCropName | server/storage.ts:160-162 | the earliest inserted record of that crop, or none exactly when there is none |
| Storage.MemStorage.CreateCropData | server/storage.ts:164-169 | stores the record under the next id, appends it, changes nothing else |
| Storage.MemStorage.ProductList | server/storage.ts:172-174 | exactly the stored products |
| Storage.MemStorage.GetProductsByCategory | server/storage.ts:176-178 | exactly the stored products of that category, in insertion order |
| Storage.MemStorage.GetProductsByUser | server/storage.ts:180-182 | exactly the stored products of that user, in insertion order |
| Storage.MemStorage.GetProductById | server/storage.ts:184-186 | found exactly when the id is stored, and then it is the product stored under that id |
| Storage.MemStorage.CreateProduct | server/storage.ts:188-193 | stores the product under the next id with the current time, appends it, changes nothing else |
| Storage.MemStorage.UpdateProduct | server/storage.ts:195-202 | unknown id: none and no change; otherwise the patched product replaces the old one and nothing else changes |
| Storage.MemStorage.DeleteProduct | server/storage.ts:204-206 | true exactly when the id was stored; the product is gone and nothing else changes |
| Storage.MemStorage.InvestmentList | server/storage.ts:209-211 | exactly the stored investments |
| Storage.MemStorage.GetInvestmentById | server/storage.ts:213-215 | found exactly when the id is stored, and then it is the investment stored under that id |
| Storage.MemStorage.GetInvestmentsByUser | server/storage.ts:217-219 | exactly the stored investments of that user, in insertion order |
| Storage.MemStorage.CreateInvestment | server/storage.ts:221-226 | stores the investment under the next id with the current time, appends it, changes nothing else |
| Storage.MemStorage.UpdateInvestment | server/storage.ts:228-235 | unknown id: none and no change; otherwise the patched investment replaces the old one and nothing else changes |
| Storage.MemStorage.DeleteInvestment | server/storage.ts:237-239 | true exactly when the id was stored; it is gone and nothing else changes |
| Storage.MemStorage.UserInvestmentList | server/storage.ts:242-244 | exactly the stored purchases |
| Storage.MemStorage.GetUserInvestments | server/storage.ts:242-244 | exactly the stored purchases of that user, in insertion order |
| Storage.MemStorage.CreateUserInvestment | server/storage.ts:246-251 | stores the purchase under the next id stamped with the current time, appends it, changes nothing else |
| Storage.MemStorage.UpdateUserInvestment | server/storage.ts:253-260 | unknown id: none and no change; otherwise only that purchase's status changes, to the given one |
| InvestmentController.CreateUserInvestment | server/routes.ts:288-320 | the handler's effect on the store is the purchase transition |
| InvestmentController.PurchaseOutcomes | server/routes.ts:293-311 | 404 exactly for an unknown investment, 400 exactly when fewer shares remain than requested, no change on either; otherwise available shares drop by the request, one purchase is added under a fresh id, nothing else changes |
| InvestmentController.BuyAllRemaining | server/routes.ts:299 | buying every remaining share succeeds and leaves none |
| InvestmentController.NegativeSharesOverfill | server/routes.ts:299-307 | a request for -40 shares passes the check and leaves 105 of 100 shares available |
| InvestmentController.CheckedPurchaseKeepsSharesInRange | server/routes.ts:299-307 | with the sign checked, every investment keeps between 0 and its total shares available |
| InvestmentController.Views | server/routes.ts:271-279 | one view per purchase, in order, each with its investment looked up by id |
| InvestmentController.UserViews | server/routes.ts:268-279 | every view is of a stored purchase of the user, and every such purchase has a view |
| InvestmentController.GetUserInvestments | server/routes.ts:260-286 | refused exactly for an empty or non-numeric id; otherwise exactly the user's stored purchases, each with its investment |
| InvestmentController.ActiveInvestments | server/routes.ts:228-241 | exactly the stored investments whose `isActive` is true; one stored without the field is not listed |
| Marketplace.Bound | server/routes.ts:191-197 | a price bound is set exactly when the parameter is non-empty and numeric, to its number |
| Marketplace.AvailableStage | server/routes.ts:185 | the first filter keeps the products whose `isAvailable` is true |
| Marketplace.CategoryStage | server/routes.ts:187-189 | the category filter applies exactly when a category other than "All Categories" is given |
| Marketplace.MinPriceStage | server/routes.ts:191-193 | the minimum-price filter is inclusive and applies exactly when the bound is set |
| Marketplace.MaxPriceStage | server/routes.ts:195-197 | the maximum-price filter is inclusive and applies exactly when the bound is set |
| Marketplace.LocationStage | server/routes.ts:199-201 | the location filter applies exactly when a location other than "All Locations" is given |
| Marketplace.FilterProducts | server/routes.ts:176-203 | the chain of filters equals one filter by the whole search |
| Marketplace.FilteredProducts | server/routes.ts:176-203 | the result keeps the store's order and exactly the matching products; a product stored without `isAvailable` is never listed |
| Marketplace.BuildQuery | server/controllers/marketplaceController.ts:10-32 | always available; category and location only when given and not "All …"; `$gte`/`$lte` from the numeric bounds; selects exactly what the in-memory filter keeps |
| Marketplace.QueryAgreesWithFilter | server/controllers/marketplaceController.ts:6-34 | the database query and the in-memory filter return the same products |
| MarketplaceClient.GetQueryString | client/src/hooks/useMarketplace.ts:14-34 | the appends produce the specified parameter list |
| MarketplaceClient.Lookup | client/src/hooks/useMarketplace.ts:33 | a key has no value exactly when no parameter carries it |
| MarketplaceClient.QueryParamsSpec | client/src/hooks/useMarketplace.ts:14-34 | only the four filter keys, at most once each, in order; category and location exactly when not "All …", a bound exactly when truthy (0 is never sent) |
| MarketplaceClient.ParamLookup | client/src/hooks/useMarketplace.ts:17-31 | the value each key gets in the query string |
| MarketplaceClient.DefaultFiltersSendNothing | client/src/hooks/useMarketplace.ts:7-11 | the default filters give an empty query string |
| MarketplaceClient.QueryStringRoundTrip | client/src/hooks/useMarketplace.ts:14-44 | when `Number` reads back `toString`, the server's search for the query string keeps exactly the products the client's filters describe |
| MarketplaceClient.ProductsWithDistance | client/src/hooks/useMarketplace.ts:47-53 | same products in the same order; empty name, initials and distance get "Farmer Name", the name's initials and the drawn distance, others are kept |
| MarketplaceClient.EmptySearchKeepsAll | client/src/components/farm-hub/marketplace/ProductList.tsx:31-34 | an empty search term keeps every product |
| MarketplaceClient.ProductOrderConsistent | client/src/components/farm-hub/marketplace/ProductList.tsx:37-48 | each sort choice is a consistent comparator |
| MarketplaceClient.SortedProductsSpec | client/src/components/farm-hub/marketplace/ProductList.tsx:31-48 | a permutation of the found products, ordered by price either way, by distance or newest first, as chosen |
| MarketplaceClient.ProductList.constructor | client/src/components/farm-hub/marketplace/ProductList.tsx:16-18 | page 1 and an empty search term |
| MarketplaceClient.ProductList.HandleSearchChange | client/src/components/farm-hub/marketplace/ProductList.tsx:20-23 | sets the term, goes back to page 1, which shows the first six found products |
| MarketplaceClient.ProductList.HandleSortChange | client/src/components/farm-hub/marketplace/ProductList.tsx:25-28 | hands the new order to the filters and goes back to page 1 |
| MarketplaceClient.ProductList.SetPage | client/src/components/farm-hub/marketplace/ProductList.tsx:135 | the pager sets the page and nothing else |
| InvestmentClient.EnhancedInvestments | client/src/hooks/useInvestments.ts:25-29 | same investments in the same order; an empty farmer name becomes "Farmer Name", empty initials the title's initials; filled ones are kept |
| InvestmentClient.EnhancedIdempotent | client/src/hooks/useInvestments.ts:25-29 | afterwards the farmer name is filled, and enhancing again changes nothing |
| InvestmentClient.SearchSpec | client/src/components/farm-hub/agri-trade/InvestmentList.tsx:20-24 | keeps the order and exactly the hits in title, description or crop type; an empty term keeps all |
| InvestmentClient.SortedInvestmentsSpec | client/src/components/farm-hub/agri-trade/InvestmentList.tsx:27-40 | a permutation of the found investments ordered by return, by period either way or by minimum investment, as chosen |
| InvestmentClient.ShownSpec | client/src/components/farm-hub/agri-trade/InvestmentList.tsx:43-47 | page p is the window of three from 3(p-1), empty past the end, and the pages cover the list |
| InvestmentClient.StalePageAfterSearch | client/src/components/farm-hub/agri-trade/InvestmentList.tsx:122 | a search does not reset the page, so a narrower result can leave the current page empty |
| InvestmentClient.SortKeepsPages | client/src/components/farm-hub/agri-trade/InvestmentList.tsx:102 | a new sort keeps the page, the page count and the found investments |
| PredictionTable.FilterCategorySpec | client/src/components/price-prediction/PredictionTable.tsx:16-18 | "All Categories" keeps every crop, another choice exactly the crops of that category, in order |
| PredictionTable.PreviousPage | client/src/components/price-prediction/PredictionTable.tsx:166 | one page back, never below 1 |
| PredictionTable.NextPage | client/src/components/price-prediction/PredictionTable.tsx:187 | one page on, never past the page count |
| PredictionTable.TransitionsStayInRange | client/src/components/price-prediction/PredictionTable.tsx:166-188 | from a page of a non-empty table both buttons lead to a page of it |
| PredictionTable.ShowingMatchesPage | client/src/components/price-prediction/PredictionTable.tsx:157-158 | on a page with crops the "Showing" line numbers exactly the crops shown |
| PredictionTable.NextWithNoResults | client/src/components/price-prediction/PredictionTable.tsx:157-187 | with no crops, Next from page 1 goes to page 0 and the line reads "-4 to 0" |
| PredictionTable.ClampedNextStaysOnAPage | client/src/components/price-prediction/PredictionTable.tsx:187 | the clamped Next never goes below page 1 and agrees with the original on a non-empty table |
| PredictionTable.Table.constructor | client/src/components/price-prediction/PredictionTable.tsx:10-12 | "All Categories" and page 1 |
| PredictionTable.Table.SelectCategory | client/src/components/price-prediction/PredictionTable.tsx:79 | sets the category and keeps the page |
| PredictionTable.Table.Previous | client/src/components/price-prediction/PredictionTable.tsx:166 | moves to the previous page |
| PredictionTable.Table.Next | client/src/components/price-prediction/PredictionTable.tsx:187 | moves to the next page of the filtered crops |
| PredictionTable.Table.GoToPage | client/src/components/price-prediction/PredictionTable.tsx:180 | the i-th button moves to page i + 1 |
| Pagination.GetPageNumbers | client/src/components/ui/Pagination.tsx:19-53 | at most three buttons; all pages 1..n when n <= 3; otherwise three consecutive pages in range that include the current one, starting at max(1, min(c - 1, n - 2)) |
| Pagination.ShowingSpec | client/src/components/ui/Pagination.tsx:62-63 | both numbers are at most the item count; on a page with items they number exactly its items |
| Pagination.EnabledButtonsStayInRange | client/src/components/ui/Pagination.tsx:73-96 | Previous is enabled exactly above page 1, Next exactly below the last, and each leads to a page in range |
| Pagination.NextEnabledWithoutPages | client/src/components/ui/Pagination.tsx:96 | with no pages, Next stays enabled on page 1 and leads to page 2 (the product list, its one user, never shows it on an empty page) |

## Left out

- HTTP, Express and React are not modelled. Status codes become result constructors, and the
  components become their state and derived lists. Loading skeletons and error views are left out.
- Child processes, JSON reading and writing, and `print` debugging in the Python scripts are left
  out. The scripts are modelled from the decoded input onward.
- MongoDB `find`, `save`, `countDocuments` and the seeders of the models are left out. The query
  object is modelled, and what it selects is stated by `Marketplace.Selects`.
- `cropSuggestionController` and the route that runs the suggestion script are not modelled.
  Their database lookups and process handling are I/O.
- `initializeStorage` is not modelled. It only calls the create methods, which are modelled, on
  the seed data.
- The random forest, `np.random`, `Math.random`, `Math.sin` and `np.mean` are parameters of the
  model. Their values are not modelled.
- Floating point is modelled as exact reals. `round(x, 2)` in the script, `toFixed` and
  `Math.floor` in display components are left out. The demand tier is computed from the exact
  percentage, as the script computes it before rounding.
- A division by a zero oldest price (server) or latest price (script) gives Infinity or NaN in the
  source. The model reports it as `DivisionByZero`.
- The investment list's pager comes from `@/components/ui/pagination`, which is not part of this
  model. The list's page state and the slice it shows are modelled; the pager's buttons are not.
- `URLSearchParams` is modelled as an ordered list of key/value pairs. Percent-encoding is left out.
- `Date` parsing is left out: `createdAt` is an integer time stamp.
- Case conversion covers ASCII letters only.
- The iteration order of a JavaScript `Map` is modelled as ascending id order. This is the
  insertion order, because ids come from the counter.
- `Object.keys` lists integer-like keys first; the model lists the crop names in order of first
  appearance. Real crop names are never integer-like.
- Concurrent requests are not modelled. The purchase's check and update run as one step, so the
  race between two purchases of the last shares is not captured.
- `Schema.ValidateForm` does not model zod's messages or its rejection of a non-number. The form
  fields are already numbers.
- Sorting.EngineSort: V8 sorts 64 or more elements by merging runs (TimSort). That is not
  modelled; the model applies the short-array algorithm at every length, so its order for 64 or
  more crops under the inconsistent demand comparator may differ from the engine's.
- PriceTrend.DemandableCropsRanked: the order among Medium- and Low-demand crops depends on the
  order the engine meets them in (see Findings), so only the High-first order is stated.
- The insert schemas' omission of `id` and `createdAt` (shared/schema.ts:118-124) is modelled by
  the create methods, which set both themselves. The columns with database defaults
  (`isAvailable`, `isActive`, `status`) are optional in the insert schemas and the store fills no
  default in, so the model keeps them as optional values; an absent one counts as false.

## Findings

| source | as written | input that shows it | evidently intended | confidence | as-written member | corrected member |
|---|---|---|---|---|---|---|
| server/routes.ts:371-376 | the demand comparator returns 1 for any two different tiers when neither is High, so it does not order Medium before Low | a Low crop at 0 % listed before a Medium crop at 10 %: both comparisons give 1 and the Low crop stays first; Medium 6 %, Low 0 %, Medium 8 % come back unchanged | High, then Medium, then Low, then descending percentage, as in price_prediction.py:183-186 | not executed | PriceTrend.DemandTierSplit | PriceTrend.DemandTierSorted |
| server/routes.ts:299-307 | the share check only compares available shares with the request, so a negative request passes and adds shares | 100 total, 65 available, a request for -40 shares: 105 of 100 available | refuse a request for zero or fewer shares | not executed | InvestmentController.NegativeSharesOverfill | InvestmentController.CheckedPurchaseKeepsSharesInRange |
| client/src/components/price-prediction/PredictionTable.tsx:187 | Next clamps only from above, to the page count, which is 0 when the category has no crops | a category with no crops, Next on page 1: page 0, "Showing -4 to 0" | never go below page 1 | not executed | PredictionTable.NextWithNoResults | PredictionTable.ClampedNextStaysOnAPage |
