# Inventory dataset pipeline — a Dafny model

This project models the backend of an inventory-analysis platform. Users upload
CSV files of products. The backend then processes each dataset in four parts:

- **Transformation engine** (`backend/src/lib/dataTransform.ts`). It removes
  duplicate records, normalises column names, infers a type for each column,
  label-encodes categorical columns, min–max scales numeric columns, splits
  dates, derives a per-row sum and average, and summarises every column.
- **Activities** (`backend/src/temporal/activities.ts`). They move a
  dataset row through its statuses (`CLEANING`, `READY`, `TRANSFORMING`,
  `TRANSFORMED`, `EDA_RUNNING`, `EDA_COMPLETE`, `FAILED`, `EDA_FAILED`) and log
  each step. They also compute the inventory analysis: stock status,
  category and supplier distributions, inventory value, low-stock alerts and
  top products.
- **Workflows** (`backend/src/temporal/workflows.ts`). They chain the
  activities. A workflow first runs an idempotency check, then classifies
  errors by their message and chooses a rollback status. A retry policy
  governs every activity call.
- **Search queries** (`backend/src/datasets/search_controller.ts`). They run
  over the stored analysis: free-text search, the lookup of one product, and
  the products of a category or supplier.

Modules and files:

| file | module | models |
|---|---|---|
| `wrappers.dfy` | `Wrappers` | `Option` and `Result` |
| `strings.dfy` | `Strings` | `toLowerCase` on ASCII, `trim`, `includes`, `String(n)`, `padStart` |
| `rows.dfy` | `Rows` | a record as an ordered list of `(key, value)` fields; JavaScript truthiness, `Number`, `parseFloat`, `String`, `Math.round` |
| `sorting.dfy` | `Sorting` | the `sort` and `slice` calls |
| `dedup.dfy` | `Dedup` | `removeDuplicates` |
| `normalize.dfy` | `Normalize` | `normalizeColumns` |
| `column_types.dfy` | `ColumnTypes` | `detectColumnTypes`, `inferColumnType` |
| `encoding.dfy` | `Encoding` | `encodeCategorical` |
| `scaling.dfy` | `Scaling` | `scaleNumeric` |
| `dates.dfy` | `Dates` | `parseDates` |
| `features.dfy` | `Features` | `createDerivedFeatures` |
| `statistics.dfy` | `Statistics` | `calculateStatistics` and the numeric and categorical summaries |
| `pipeline.dfy` | `Pipeline` | `transformDataset` on loaded records |
| `inventory.dfy` | `Inventory` | `generateRealInventoryAnalysis` and its helpers |
| `activities.dfy` | `Activities` | the idempotency check, the progress query, and the four activities as methods of a `DatasetStore` class |
| `workflows.dfy` | `Workflows` | the two workflows as decision functions over activity outcomes, and the retry policy |
| `search.dfy` | `Search` | the four query helpers of the search controller |

Every `for` and `forEach` loop of the source is a method with loop
invariants, with two exceptions. The method is proved equal to a
specification function. The properties the source promises are proved as
lemmas about that function. The two exceptions are recursive functions:

- the `for…of` over the candidate names in `findColumn`
  (`Inventory.FindColumn`), a search that returns early;
- the `map` over the rows and the `for…of` over each row's entries in
  `normalizeColumns` (`Normalize.NormalizeColumns` over
  `Normalize.NormalizeRow`), which only build new rows.

A method's world outside the model comes in as parameters:

- JavaScript's parsing and printing of numbers and dates is an uninterpreted
  record of functions (`Rows.Js`).
- What a dataset's file loads to is a `Result` parameter.
- `TEMPORAL_WORKFLOW_ID` is an `Option<string>` parameter.
- The workflows receive each activity's outcome (`Workflows.Outcome`).

The database is the `DatasetStore` class, with three fields:

- `datasets`: a map from id to dataset row;
- `logs`: the `cleaning_logs` table, append-only;
- `edaResults`: the `eda_results` table, append-only.

## Model

| member | source | states |
|---|---|---|
| Dedup.FirstOccurrences | backend/src/lib/dataTransform.ts:66-83 | the kept rows are exactly the input's rows, none twice, never more rows than the input |
| Dedup.FirstOccurrencesOrdered | backend/src/lib/dataTransform.ts:70-78 | the kept rows appear in the order of their first occurrences, so each row's first occurrence is kept and relative order is preserved |
| Dedup.RemoveDuplicates | backend/src/lib/dataTransform.ts:66-83 | the seen-set loop returns the first occurrences, and kept plus removed equals the input length |
| Normalize.NormalizeKey | backend/src/lib/dataTransform.ts:92-96 | a normalised key holds only `a-z`, `0-9` and `_` |
| Normalize.NormalizeKeyIdempotent | backend/src/lib/dataTransform.ts:92-96 | normalising a key twice gives the same key as once |
| Normalize.NormalizeRowShape | backend/src/lib/dataTransform.ts:90-101 | a normalised row has distinct normal keys, each holding the last value written to it, so values are carried over unchanged |
| Normalize.NormalizeColumns | backend/src/lib/dataTransform.ts:88-103 | one normalised row per input row, so an empty input gives an empty output |
| Normalize.NormalizeColumnsShape | backend/src/lib/dataTransform.ts:88-103 | every output row has distinct normal keys holding the input's values |
| Normalize.NormalizeColumnsIdempotent | backend/src/lib/dataTransform.ts:88-103 | normalising normalised data changes nothing |
| ColumnTypes.Samples | backend/src/lib/dataTransform.ts:125 | the samples are the first `min(100, n)` rows |
| ColumnTypes.CountsPartition | backend/src/lib/dataTransform.ts:129-145 | every sampled value takes exactly one branch of the else-if chain, so the counters never exceed the valid samples |
| ColumnTypes.DigitsCountAsNumbers | backend/src/lib/dataTransform.ts:135-145 | `"1"` and `"0"` always count as numbers, never as booleans |
| ColumnTypes.ColumnTypeMeaning | backend/src/lib/dataTransform.ts:147-154 | `unknown` exactly when no sample is valid; numeric, date or boolean exactly when that count is strictly above 80% of the valid samples; otherwise categorical |
| ColumnTypes.UnknownIffAllMissing | backend/src/lib/dataTransform.ts:147-149 | a column is `unknown` exactly when every sampled value is null, undefined or empty |
| ColumnTypes.OnlySamplesMatter | backend/src/lib/dataTransform.ts:125 | rows after the first 100 never change a column's type |
| ColumnTypes.InferColumnType | backend/src/lib/dataTransform.ts:124-155 | the counting loop returns the specified column type |
| ColumnTypes.ColumnTypesOfMeaning | backend/src/lib/dataTransform.ts:108-119 | no types for no data; otherwise exactly the first row's keys, each with its inferred type |
| ColumnTypes.DetectColumnTypes | backend/src/lib/dataTransform.ts:108-119 | the loop over the first row's keys returns the specified types |
| ColumnTypes.ColumnsOfType | backend/src/lib/dataTransform.ts:418-426 | the columns listed under a type are exactly those recorded with it |
| Encoding.CodeOf | backend/src/lib/dataTransform.ts:179-189 | a code lies in `[-1, k-1]` and is never 0; it is -1 exactly for the first-seen text or an unknown text; otherwise it is the text's first-appearance index |
| Encoding.DecodeEncode | backend/src/lib/dataTransform.ts:173-189 | every text of the column is recovered from its code |
| Encoding.CodeInjective | backend/src/lib/dataTransform.ts:173-189 | distinct texts get distinct codes |
| Encoding.MinusOneIffFirstRowText | backend/src/lib/dataTransform.ts:173-189 | a row's code is -1 exactly when its text equals the first row's |
| Encoding.EncodedField | backend/src/lib/dataTransform.ts:185-191 | `<col>_encoded` holds the code of the row's text |
| Encoding.EncodedKeeps | backend/src/lib/dataTransform.ts:185-191 | every other field of the row is kept |
| Encoding.BuildEncoding | backend/src/lib/dataTransform.ts:173-182 | the map-building loop collects the column's texts in first-appearance order |
| Encoding.BuildEncodings | backend/src/lib/dataTransform.ts:172-182 | the loop over the categorical columns builds each column's vocabulary in first-appearance order |
| Encoding.EncodeRow | backend/src/lib/dataTransform.ts:185-192 | the per-row loop returns the specified encoded row |
| Encoding.EncodeCategorical | backend/src/lib/dataTransform.ts:169-196 | the whole step returns the specified rows, one per input row |
| Scaling.BoundsMeaning | backend/src/lib/dataTransform.ts:205-218 | the bounds are absent exactly when no value parses; otherwise they bound every parsed value |
| Scaling.ScaleValue | backend/src/lib/dataTransform.ts:226-228 | a value between the bounds scales into `[0, 1]`, the minimum to 0, and the maximum of a non-constant column to 1 |
| Scaling.ScaleMonotone | backend/src/lib/dataTransform.ts:226-228 | scaling keeps the order of values |
| Scaling.ScaledField | backend/src/lib/dataTransform.ts:223-230 | `<col>_scaled` holds the scaled value when the row's value parses and is left alone otherwise |
| Scaling.ScaledKeeps | backend/src/lib/dataTransform.ts:222-231 | fields other than the scaled ones are kept |
| Scaling.ScaledInUnitRange | backend/src/lib/dataTransform.ts:205-231 | each row's scaled value of a parsing cell lies in `[0, 1]` |
| Scaling.ExtremesScaleToEnds | backend/src/lib/dataTransform.ts:226-228 | the column's minimum scales to 0, and its maximum to 1 unless the column is constant |
| Scaling.ColumnBounds | backend/src/lib/dataTransform.ts:205-218 | the min/max loop returns the specified bounds |
| Scaling.AllBounds | backend/src/lib/dataTransform.ts:204-218 | the loop over the numeric columns records each column's specified bounds |
| Scaling.ScaleRow | backend/src/lib/dataTransform.ts:222-231 | the per-row loop returns the specified scaled row |
| Scaling.ScaleNumeric | backend/src/lib/dataTransform.ts:201-236 | the whole step returns the specified rows, one per input row |
| Dates.DatedField | backend/src/lib/dataTransform.ts:244-255 | each of the four derived fields holds its part of a valid date and is left alone otherwise |
| Dates.NoDatesNoChange | backend/src/lib/dataTransform.ts:244-255 | a row without valid dates is unchanged |
| Dates.DerivedNameInjective | backend/src/lib/dataTransform.ts:250-253 | the derived field names of distinct columns or parts never collide |
| Dates.ParseRowDates | backend/src/lib/dataTransform.ts:243-259 | the per-row loop returns the specified row |
| Dates.ParseDates | backend/src/lib/dataTransform.ts:241-265 | the whole step returns the specified rows |
| Features.AverageBetween | backend/src/lib/dataTransform.ts:288-298 | a row's average lies between its least and greatest parsed value |
| Features.FeatureRowFields | backend/src/lib/dataTransform.ts:273-303 | `numeric_sum` and `numeric_avg` are the sum and mean of the parsable values, 0 for none; other fields are kept |
| Features.FeatureNames | backend/src/lib/dataTransform.ts:277-299 | the feature list is empty, or both names once, exactly when there are rows and numeric columns |
| Features.SumLoop | backend/src/lib/dataTransform.ts:278-282 | the first per-row loop returns the sum of the row's parsable values |
| Features.SumCountLoop | backend/src/lib/dataTransform.ts:288-297 | the second per-row loop returns the same sum and the number of parsable values |
| Features.AddFeatures | backend/src/lib/dataTransform.ts:273-303 | the two per-row loops return the specified row |
| Features.CreateDerivedFeatures | backend/src/lib/dataTransform.ts:270-307 | the whole step returns the specified rows and feature names |
| Statistics.MissingCountZero | backend/src/lib/dataTransform.ts:327-332 | no missing value exactly when the missing count is 0 |
| Statistics.CountMissing | backend/src/lib/dataTransform.ts:327-333 | the missing-count loop returns the number of null, undefined or empty cells, at most the row count |
| Statistics.NumericStatsMeaning | backend/src/lib/dataTransform.ts:350-370 | all zeros without parsable values; otherwise the min and max bound the values and belong to them, `min ≤ q1 ≤ median ≤ q3 ≤ max`, the mean lies between min and max, and the variance is not negative |
| Statistics.SummaryOrder | backend/src/lib/dataTransform.ts:360-367 | on sorted values the ends are the min and max, `min ≤ q1 ≤ median ≤ q3 ≤ max`, the mean lies between the ends, and the variance is not negative |
| Statistics.QuartileOrder | backend/src/lib/dataTransform.ts:363-367 | in a sorted sequence the floor-indexed quartiles and median are in order |
| Statistics.TallyCounts | backend/src/lib/dataTransform.ts:379-386 | each text's count is its number of occurrences; the empty text is never counted |
| Statistics.TallyKeys | backend/src/lib/dataTransform.ts:379-386 | the counted texts are the distinct non-empty texts in first-appearance order |
| Statistics.TallyTotal | backend/src/lib/dataTransform.ts:379-386 | the counts plus the missing count add up to the row count |
| Statistics.TallyEntry | backend/src/lib/dataTransform.ts:379-386 | each tallied text is a non-empty text of the column and its count is its number of occurrences |
| Statistics.TopValuesMeaning | backend/src/lib/dataTransform.ts:388-391 | at most ten values, by non-increasing count, taken from the counts; none left out has a larger count than one kept; values with equal counts keep their first-seen order |
| Statistics.CategoricalStatsMeaning | backend/src/lib/dataTransform.ts:375-398 | `uniqueValues` is the number of distinct non-empty texts; counts are exact and add up with `missingCount` to the rows |
| Statistics.CalculateCategoricalStats | backend/src/lib/dataTransform.ts:375-398 | the counting loop returns the specified summary |
| Statistics.NumericEntriesMeaning | backend/src/lib/dataTransform.ts:336-338 | numeric summaries exist exactly for the columns typed numeric |
| Statistics.CategoricalEntriesMeaning | backend/src/lib/dataTransform.ts:336-340 | categorical summaries exist exactly for the columns typed categorical |
| Statistics.MissingEntriesMeaning | backend/src/lib/dataTransform.ts:325-333 | each column of the first row gets its own missing count |
| Statistics.CalculateStatistics | backend/src/lib/dataTransform.ts:312-345 | the loop over the first row's keys returns the specified statistics |
| Statistics.StatisticsMeaning | backend/src/lib/dataTransform.ts:312-345 | the row total is the row count; missing counts cover the first row's keys; summaries exist for exactly the numeric and categorical keys |
| Sorting.SortAsc | backend/src/lib/dataTransform.ts:351-354 | the ascending sort is sorted and a permutation of its input |
| Sorting.TopOfSorted | backend/src/lib/dataTransform.ts:388-391 | the first `n` of a stable descending sort are sorted, drawn from the input, none left out is larger than one kept, and equal keys keep their input order |
| Sorting.SortDescStable | backend/src/lib/dataTransform.ts:389 | the descending sort is stable: the elements with any one key come out in their input order |
| Sorting.TakeStable | backend/src/lib/dataTransform.ts:389-390 | after the cut, the kept elements with any one key are the first ones of that key in the input, in input order |
| Pipeline.TransformDataset | backend/src/lib/dataTransform.ts:403-458 | the counts, type lists, derived features and statistics of the result describe the de-duplicated, normalised records |
| Pipeline.RowsKept | backend/src/lib/dataTransform.ts:409-447 | every step keeps the number of de-duplicated rows |
| Pipeline.TypeListsDisjoint | backend/src/lib/dataTransform.ts:418-426 | no column is listed under two types |
| Pipeline.OneTypePerColumn | backend/src/lib/dataTransform.ts:418-426 | when every column is recorded with a single type, no column is listed under two different types |
| Strings.Contains | backend/src/temporal/activities.ts:407 | `includes` holds exactly when the pattern occurs at some position |
| Strings.Trim | backend/src/temporal/activities.ts:462 | a trimmed label has no white space at either end, and it is a slice of the input with only white space around it |
| Rows.PutLookup | backend/src/lib/dataTransform.ts:99 | after an assignment the key reads the new value and every other key is unchanged |
| Rows.Round | backend/src/temporal/activities.ts:515 | `Math.round` gives the nearest integer, halves rounded up |
| Rows.FloatOrZero | backend/src/temporal/activities.ts:428 | a falsy cell reads as 0 |
| Inventory.FirstContaining | backend/src/temporal/activities.ts:407 | the first column name that holds the fragment, or none exactly when no name holds it |
| Inventory.FindColumn | backend/src/temporal/activities.ts:405-411 | none exactly when no candidate occurs in any name; otherwise the first name holding the first candidate that occurs |
| Inventory.ColumnNames | backend/src/temporal/activities.ts:331 | the lower-cased keys of the first record, or none without records |
| Inventory.DetectedColumnsAreLowerCase | backend/src/temporal/activities.ts:331-338 | a detected column holds no capital letter |
| Inventory.AnalyzeStockStatus | backend/src/temporal/activities.ts:417-448 | the counter loop returns the specified stock status |
| Inventory.StockPartition | backend/src/temporal/activities.ts:427-444 | every row is at exactly one level, so the four counts add up to the rows |
| Inventory.StockStatusMeaning | backend/src/temporal/activities.ts:417-448 | all counts 0 without a quantity column; otherwise healthy + low + out of stock equals the rows whose quantity parses |
| Inventory.StockLevelMeaning | backend/src/temporal/activities.ts:427-443 | out of stock exactly when the quantity reads 0, empty cells included; low exactly when a non-zero quantity is below a positive reorder level |
| Inventory.UnmatchedQuantityKeyReadsAsZero | backend/src/temporal/activities.ts:331-346 | a quantity header spelt with capitals is never found in the rows, so every row counts as out of stock |
| Inventory.Labels | backend/src/temporal/activities.ts:462 | each row's label is its trimmed text or the fallback |
| Inventory.Distribution | backend/src/temporal/activities.ts:453-492 | the shared counting loop returns the specified distribution |
| Inventory.AnalyzeCategoryDistribution | backend/src/temporal/activities.ts:453-470 | the category loop uses the fallback `Uncategorized` |
| Inventory.AnalyzeSupplierDistribution | backend/src/temporal/activities.ts:475-492 | the supplier loop uses the fallback `Unknown Supplier` |
| Inventory.DistributionMeaning | backend/src/temporal/activities.ts:461-466 | keys are the distinct non-blank trimmed labels, each with its exact count; counts plus blank rows equal the rows, so the total never exceeds them |
| Inventory.TrimmedTally | backend/src/temporal/activities.ts:461-466 | tallying trimmed labels gives non-blank keys without white space at either end, each with its exact count |
| Inventory.AbsentColumnDistribution | backend/src/temporal/activities.ts:456-459 | without the column the distribution is exactly `{fallback: rows}` |
| Inventory.FalsyCellLabel | backend/src/temporal/activities.ts:462 | a falsy cell is counted under the fallback label |
| Inventory.LineValue | backend/src/temporal/activities.ts:506-511 | a row adds `qty * price` only when both are positive, so never a negative amount |
| Inventory.CalculateInventoryValue | backend/src/temporal/activities.ts:498-516 | the summing loop returns the specified value |
| Inventory.InventoryValueMeaning | backend/src/temporal/activities.ts:498-516 | 0 when a column is absent; otherwise the rounded sum, never negative |
| Inventory.GenerateLowStockAlerts | backend/src/temporal/activities.ts:522-558 | the alert loop returns the specified alerts |
| Inventory.AlertAtMeaning | backend/src/temporal/activities.ts:535-552 | a row raises an alert exactly when its quantity parses and is 0 or below a positive reorder level; its id is the row's `PROD-` id; `OUT_OF_STOCK` exactly when the quantity is 0 |
| Inventory.AllAlertsMeaning | backend/src/temporal/activities.ts:533-554 | the alerts are those of the raising rows, in source-row order |
| Inventory.AlertRowsComplete | backend/src/temporal/activities.ts:533-554 | no raising row is skipped |
| Inventory.LowStockAlertsCapped | backend/src/temporal/activities.ts:531-557 | at most 20 alerts, the first ones, exactly `min(20, alerts raised)` of them; none without a quantity column |
| Inventory.GenerateTopProducts | backend/src/temporal/activities.ts:563-599 | the product loop, sort and slice return the specified top products |
| Inventory.ProductsMeaning | backend/src/temporal/activities.ts:576-590 | every product comes from a row with positive quantity and price, with a non-negative value |
| Inventory.TopProductsMeaning | backend/src/temporal/activities.ts:571-595 | exactly `min(10, products)` of them, empty without both columns, non-increasing by value, drawn from the products, none left out worth more than one kept, products of equal value in row order |
| Inventory.CompletenessWithNothingMissing | backend/src/temporal/activities.ts:394 | the completeness formula gives `100 / columns` with nothing missing, so it is below 100 whenever there are two or more columns |
| Inventory.GenerateInventoryAnalysis | backend/src/temporal/activities.ts:323-400 | the analysis method returns the specified analysis |
| Inventory.AnalysisMeaning | backend/src/temporal/activities.ts:326-397 | fails exactly on no data, with `No data to analyze`; otherwise the summary and stock-status counts agree, the value is not negative, and the caps hold |
| Activities.CheckWorkflowState | backend/src/temporal/activities.ts:56-74 | processed exactly when the row exists in `READY` (clean) or `EDA_COMPLETE` (transform) with a non-empty workflow id other than the caller's; a missing row or a failed query answers not processed |
| Activities.QueryOf | backend/src/temporal/activities.ts:51-60 | the check's query finds no row exactly for an unknown id |
| Activities.StampedId | backend/src/temporal/activities.ts:163 | the stamped workflow id is never empty and is the environment's id when that is set |
| Activities.Loaded | backend/src/temporal/activities.ts:169 | the transformation succeeds exactly when the file loads, and fails with the load error otherwise |
| Activities.AnalysedMeaning | backend/src/temporal/activities.ts:279-290 | the analysis succeeds exactly when the file loads and has records; `No data to analyze` for none |
| Activities.CleanMeaning | backend/src/temporal/activities.ts:143-196 | nothing is written for an unknown id; otherwise only that dataset changes, `INIT` is logged first, the workflow id is stamped, and the status ends `READY` on success and `FAILED` with the error re-raised on failure |
| Activities.TransformMeaning | backend/src/temporal/activities.ts:198-256 | nothing is written for an unknown id; otherwise the status ends `TRANSFORMED` with the metadata, or `FAILED`, and the workflow id is untouched |
| Activities.PerformEdaMeaning | backend/src/temporal/activities.ts:258-317 | exactly one analysis is stored and the status ends `EDA_COMPLETE` on success; nothing is stored and it ends `EDA_FAILED` on failure |
| Activities.RollbackMeaning | backend/src/temporal/activities.ts:81-95 | the status is overwritten whatever it was and exactly one log entry is appended |
| Activities.CleanedIsProcessed | backend/src/temporal/activities.ts:56-74 | after a successful clean a second clean workflow short-circuits exactly when its id differs from the stamped one |
| Activities.PipelineIsProcessed | backend/src/temporal/activities.ts:161-164 | after clean, transform and EDA succeed, the transform check compares against the id the clean activity stamped |
| Activities.UnstampedNeverProcessed | backend/src/temporal/activities.ts:64 | a dataset without a workflow id is never reported processed |
| Activities.LogsOf | backend/src/temporal/activities.ts:117-120 | the dataset's log entries, oldest first: the k-th is the entry at the k-th of its increasing positions in the log |
| Activities.LogsOfMembers | backend/src/temporal/activities.ts:117-120 | the dataset's log entries are exactly the entries of the log that carry its id |
| Activities.NewestEntries | backend/src/temporal/activities.ts:117-120 | the first `n` of the dataset's entries reversed are its newest `n`, newest first, each at the dataset's k-th last position in the log |
| Activities.FirstResult | backend/src/temporal/activities.ts:123-126 | a stored analysis of the dataset, present exactly when one was stored |
| Activities.QueryProgressMeaning | backend/src/temporal/activities.ts:101-141 | `NOT_FOUND` exactly for an unknown id; otherwise the status and at most ten of the dataset's own logs, newest first: the k-th is the entry at the dataset's k-th last position in the log |
| Activities.DatasetStore.LogStep | backend/src/temporal/activities.ts:601-607 | one log entry is appended and nothing else changes |
| Activities.DatasetStore.SetStatus | backend/src/temporal/activities.ts:185 | only the dataset's status changes |
| Activities.DatasetStore.LoadAndTransform | backend/src/temporal/activities.ts:169 | the load-and-transform call gives the specified outcome |
| Activities.DatasetStore.LoadAndAnalyse | backend/src/temporal/activities.ts:279-290 | the load, transform and analysis calls give the specified outcome |
| Activities.DatasetStore.CleanDataset | backend/src/temporal/activities.ts:143-196 | the new store and result are those of the clean transition |
| Activities.DatasetStore.FinishClean | backend/src/temporal/activities.ts:169-195 | the success and failure branches give the specified store and result |
| Activities.DatasetStore.TransformDatasetActivity | backend/src/temporal/activities.ts:198-256 | the new store and result are those of the transform transition |
| Activities.DatasetStore.FinishTransform | backend/src/temporal/activities.ts:215-255 | the success and failure branches give the specified store and result |
| Activities.DatasetStore.PerformEdaActivity | backend/src/temporal/activities.ts:258-317 | the new store and result are those of the EDA transition |
| Activities.DatasetStore.FinishEda | backend/src/temporal/activities.ts:272-316 | the success and failure branches give the specified store and result |
| Activities.DatasetStore.RollbackDataset | backend/src/temporal/activities.ts:81-95 | the new store is that of the rollback transition |
| Workflows.CleanFailure | backend/src/temporal/workflows.ts:42-52 | a message holding `Dataset not found` fails permanently; any other error is re-raised unchanged |
| Workflows.CleanWorkflowMeaning | backend/src/temporal/workflows.ts:26-53 | the check runs first; the clean activity runs exactly when the check answers not processed; its result is returned; nothing is rolled back |
| Workflows.RollbackStatus | backend/src/temporal/workflows.ts:97-116 | a rollback status is only ever `TRANSFORM_FAILED` or `EDA_FAILED` |
| Workflows.ShortCircuit | backend/src/temporal/workflows.ts:34-38 | an already processed dataset runs only the check and returns the cached result; the same holds at lines 69-73 |
| Workflows.TransformBeforeEda | backend/src/temporal/workflows.ts:75-84 | the EDA activity runs exactly when the transform activity succeeded, right after it, and a successful run returns the EDA result |
| Workflows.ErrorClassification | backend/src/temporal/workflows.ts:85-121 | not-found errors fail permanently without rollback; then transformation and CSV errors roll back to `TRANSFORM_FAILED`; then EDA errors to `EDA_FAILED`; anything else is re-raised |
| Workflows.RollbackIsLast | backend/src/temporal/workflows.ts:99-115 | a rollback is the last call, its own failure never changes the run, and a run ending in one fails permanently |
| Workflows.PrefixedNotMatched | backend/src/temporal/workflows.ts:44 | a message `Dataset <id>…` with such a tail never contains `Dataset not found` |
| Workflows.ActivityMessagesNotMatched | backend/src/temporal/workflows.ts:91 | for a UUID id, neither activity's not-found message contains `Dataset not found` |
| Workflows.DeletedDatasetIsRethrown | backend/src/temporal/workflows.ts:42-52 | a clean run on a deleted dataset ends with the activity's error re-raised unchanged, not failed as non-retryable |
| Workflows.RetrySchedule | backend/src/temporal/workflows.ts:13-18 | three attempts mean two waits |
| Workflows.RetryIntervalMeaning | backend/src/temporal/workflows.ts:14-16 | the waits start at 2 s, never shrink, and never pass 60 s |
| Workflows.RetryScheduleValues | backend/src/temporal/workflows.ts:13-18 | the waits are exactly 2 s and 4 s |
| Search.PerformSearch | backend/src/datasets/search_controller.ts:93-169 | the three passes return the specified results |
| Search.PushAlertHits | backend/src/datasets/search_controller.ts:103-118 | the alert pass returns exactly the results of the alerts whose name or product id holds the term |
| Search.PushTopHits | backend/src/datasets/search_controller.ts:121-135 | the top-product pass appends the specified results to those of the alert pass |
| Search.PushDistributionHits | backend/src/datasets/search_controller.ts:139-166 | a distribution pass appends the results of the keys holding the term to what was there |
| Search.AlertHitsMeaning | backend/src/datasets/search_controller.ts:103-118 | an alert yields a result exactly when its name or product id holds the term; the k-th result is that of the k-th matching alert, at increasing positions, none skipped |
| Search.TopHitsMeaning | backend/src/datasets/search_controller.ts:121-135 | the top-product pass only appends; a product is added only under a name no product result had; every matching product's name ends up among the results; the appended results are those of the products at strictly increasing positions, in product order, and a position is skipped exactly when its product does not match or its name was already among the results when the pass reached it |
| Search.DistributionHitsMeaning | backend/src/datasets/search_controller.ts:141-149 | a distribution key yields a result exactly when it holds the term, with its count unchanged; the k-th result is that of the k-th matching key, in stored order, none skipped |
| Search.SearchKindsMeaning | backend/src/datasets/search_controller.ts:101-166 | every result has a kind the search type asks for; products come before categories, categories before suppliers |
| Search.SearchCategoriesMeaning | backend/src/datasets/search_controller.ts:139-151 | the category results are exactly the category keys holding the term, with their counts |
| Search.SearchSuppliersMeaning | backend/src/datasets/search_controller.ts:154-166 | the supplier results are exactly the supplier keys holding the term, with their counts |
| Search.SearchResultsMatch | backend/src/datasets/search_controller.ts:99-166 | every result matched the term, by its own name or, for an alert, by name or product id |
| Search.ProductIdMatchShowsName | backend/src/datasets/search_controller.ts:105-113 | an alert found by product id alone is shown under a name that lacks the term |
| Search.FindAlert | backend/src/datasets/search_controller.ts:253-256 | the first alert whose name or product id equals the name ignoring case, or none |
| Search.FindProduct | backend/src/datasets/search_controller.ts:275-277 | the first top product whose name equals the name ignoring case, or none |
| Search.FindProductDetailsMeaning | backend/src/datasets/search_controller.ts:248-292 | nothing exactly when no alert and no top product is so named; an alert wins over a top product; the details are built field by field from the first matching alert (name or else product id, and `currentQty * unitPrice` as its value) or else from the first matching top product |
| Search.SubstringVersusEquality | backend/src/datasets/search_controller.ts:93-292 | on a payload whose only top product is `Widget A`, the search for `widget` finds one result while the lookup of `widget` finds nothing |
| Search.CollectProducts | backend/src/datasets/search_controller.ts:379-413 | the two passes return the specified listing |
| Search.GetProductsByCategory | backend/src/datasets/search_controller.ts:379-413 | the category lookup returns the specified listing |
| Search.GetProductsBySupplier | backend/src/datasets/search_controller.ts:500-534 | the supplier lookup returns the specified listing |
| Search.ProductsWithMeaning | backend/src/datasets/search_controller.ts:379-413 | every matching alert is listed, then the matching top products, one per new name; nothing else is listed |
| Search.AlertListingsMeaning | backend/src/datasets/search_controller.ts:383-395 | an alert is listed exactly when its field equals the name ignoring case |
| Search.ProductListingsMeaning | backend/src/datasets/search_controller.ts:397-410 | a top product is listed only under a name not yet listed, and every matching name ends up listed |
| Search.StoredHasNoProductsByField | backend/src/datasets/search_controller.ts:383-410 | on a payload the EDA activity stored, both lookups return nothing |

## Left out

- `loadCSVData`, the storage reads and CSV parsing: a dataset's file is a
  `Result` over parsed records.
- JavaScript `Number`, `parseFloat`, `String` of a number and `new Date` are
  an uninterpreted record of functions (`Rows.Js`). `Number('')` is 0 and
  `Number(undefined)` is `NaN`; these two facts are built in.
- Floating point: arithmetic is over exact reals. Sums, means, scaled values
  and products carry no rounding error and never overflow.
  `Math.round` is rounding over reals with halves rounded up.
- Statistics.NumericStatsMeaning: the standard deviation is kept as the
  variance it is the square root of, because there is no square root over
  reals.
- `toLowerCase` is modelled on ASCII letters only.
- `JSON.stringify` as the de-duplication key is modelled by the row itself.
  These are equal for string-valued records.
- Object keys are taken in insertion order, so a record is an ordered list
  of fields. JavaScript lists integer-like keys (such as a header `2024`)
  first, in increasing numeric order, and the model does not. This affects:
  - `ColumnTypes.DetectColumnTypes` (`Object.keys` of the first row,
    backend/src/lib/dataTransform.ts:114): the order of the columns in the
    type record;
  - `Statistics.CalculateStatistics` (`Object.keys` of the first row,
    backend/src/lib/dataTransform.ts:325): the order of the columns in the
    statistics;
  - `ColumnTypes.ColumnsOfType` (`Object.entries` of the type record,
    backend/src/lib/dataTransform.ts:418-426): the order of the categorical,
    numeric and date column lists, and so the order in which columns are
    encoded, scaled, split and summed;
  - the search over the stored category and supplier distributions
    (`Object.entries`, backend/src/datasets/search_controller.ts:141 and 156):
    the order of the distribution results.

  The set of columns and each column's type, statistics and values do not
  depend on this order. Only the order of the lists does.
- Inventory.DistributionOf and Inventory.Distribution count every label from
  0, as if the counting object started with no keys at all. The source counts
  into a plain object literal (backend/src/temporal/activities.ts:454-464 and
  476-486), which inherits the keys of `Object.prototype`. A label that names
  one of those keys is therefore counted differently:
  - `constructor`, `toString`, `valueOf`, `hasOwnProperty` and the other
    inherited methods read as a function, which is truthy, so
    `(distribution[label] || 0) + 1` concatenates strings. The stored value
    is text such as `function Object() { [native code] }1`, and each further
    row appends another `1`;
  - `__proto__` is read as the prototype object, and assigning the resulting
    string to it is ignored, so that label is never stored.

  The model gives each such label its row count, as for any other label. The
  search over the stored category and supplier distributions
  (backend/src/datasets/search_controller.ts:141-166) inherits this: the model
  reports a number where the stored payload holds such a string, and a result
  for `__proto__` that the payload does not contain.
- Database errors inside an activity are not modelled. A failed query in the
  idempotency check is modelled (`QueryFailed`).
- Timestamps (`created_at`, `updated_at`, `last_updated`) are left out.
  `ORDER BY created_at DESC` is modelled as the reverse of insertion order.
  `eda_results … LIMIT 1` without `ORDER BY` is modelled as the oldest
  stored row.
- Heartbeats, `workflowInfo`, `proxyActivities` timeouts and the actual retry
  execution by the runtime are left out. The retry policy is modelled as its
  schedule of waits.
- Concurrency is left out. The intermediate statuses `CLEANING`,
  `TRANSFORMING` and `EDA_RUNNING` are modelled as writes that a later write
  overwrites.
- The `queryWorkflowProgress` workflow only forwards the activity's answer, so
  only the activity is modelled.
- The Express handlers of the search controller are left out. Their access
  checks and the reading of the latest `eda_results` row are not modelled.
  The model starts from the parsed payload. JSON `null` is treated as an
  absent field.
- `Activities.DatasetStore.constructor` starts an empty log. Its contract is
  about the model's own set-up, so it has no table row.

### Where the code and its description differ

The model follows the code in each case below.

- The completeness figure divides by rows × columns but subtracts missing
  cells from the rows only. A complete dataset therefore scores `100 / columns`
  (`Inventory.CompletenessWithNothingMissing`).
- The activities' not-found messages are `Dataset <id> not found - it may have
  been deleted` and `Dataset <id> not found`. Neither contains `Dataset not
  found`, so the workflows' permanent-failure branch does not fire for them.
  A deleted dataset's error is re-raised unchanged instead of being failed as
  non-retryable (`Workflows.DeletedDatasetIsRethrown`).
- Label encoding writes -1 for the first category seen, because its index 0
  is falsy in `get(value) || -1` (`Encoding.MinusOneIffFirstRowText`).
- The type thresholds are strict: more than 80%, not at least 80%.
- The transform activity fails to `FAILED`, not `TRANSFORM_FAILED`. Only the
  workflow's rollback writes `TRANSFORM_FAILED`.
- The inventory analysis lower-cases the column names but reads the rows with
  the lower-cased name. A header with capitals therefore reads as an absent
  cell (`Inventory.UnmatchedQuantityKeyReadsAsZero`).
- Only the clean activity stamps `workflow_id`. The transform workflow's check
  therefore compares against the clean workflow's id
  (`Activities.PipelineIsProcessed`).
- `"1"` and `"0"` are always numbers, never booleans
  (`ColumnTypes.DigitsCountAsNumbers`).
- Stored alerts and top products carry no category or supplier. So the
  category and supplier product lookups return nothing on a stored analysis
  (`Search.StoredHasNoProductsByField`).
- A search hit on an alert's product id alone is shown under the alert's name,
  which need not contain the term (`Search.ProductIdMatchShowsName`).
