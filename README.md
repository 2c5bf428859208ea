# Olist ETL pipeline, modelled in Dafny

`pipeline_etl.py` defines `PipelineOlistETL`, a three-stage batch job over
the public Olist e-commerce data:

- **extract** reads `olist_customers_dataset.csv`, `olist_orders_dataset.csv`
  and `olist_order_items_dataset.csv` from a data folder into a dictionary.
  Each key comes from the file name by
  `file.replace('olist_', '').replace('_dataset.csv', '')`.
- **transform** looks up `customers` and `orders`, inner-joins them on
  `customer_id`, and parses `order_purchase_timestamp`. It then adds the
  purchase month (`mes_compra`), the English weekday name
  (`dia_semana_compra`) and the hour (`hora_compra`).
- **load** writes the result to the SQLite table `pedidos_enriquecidos`,
  replacing any table of that name.
- **run** calls the three stages in that order. Any exception ends the run.

The model has eight modules, one per file:

| file | module | what it holds |
|---|---|---|
| `tables.dfy` | `Tables` | cell values, rows as maps from column name to value, rectangular frames, the errors that abort a run, `Result` |
| `calendar.dfy` | `Calendar` | the proleptic Gregorian calendar: month lengths, day numbers, weekday names |
| `timestamps.dfy` | `Timestamps` | the "YYYY-MM-DD HH:MM:SS" text form of a timestamp, parsed and printed |
| `key_names.dfy` | `KeyNames` | Python's `str.replace` and the key-name derivation |
| `merge.dfy` | `Merge` | `pd.merge(left, right, on=key)` with pandas' defaults |
| `transform.dfy` | `Transform` | the `transform` stage |
| `pipeline.dfy` | `Pipeline` | the pipeline object: `extract` as a loop over the file list, `load` and `run` as methods that update the store |
| `scenario.dfy` | `Scenario` | a worked run over two customers and one order |

The extract loop is a `method` with a `for` loop. It is proved equal to the
recursive function `ExtractFrom`, and the lemmas are stated about that function.
The pipeline object is a class:

- The data folder is a `const` map from file name to the table `read_csv`
  returns; a missing file is a missing entry.
- The SQLite store is a `var` map from table name to table.

The join and the feature step are functions over rows. `pd.merge` returns a
fresh frame, and the feature assignments of `transform` change only that
frame, which nothing else holds; a function from the joined rows to the
enriched rows therefore loses nothing.

Three behaviours of the code are easy to overlook:

- **Null keys.** Missing join keys match each other in `pd.merge`. The model
  compares keys with plain equality, so two `Null` keys match. Surviving rows
  may therefore carry a null `customer_id`.
- **Join size.** An inner join gives one row per matching pair, so it can give
  more rows than its smaller input; see `Scenario.JoinCanOutgrowSmallerInput`,
  where a one-row customers table gives two rows.
- **Key names.** The key is not always "the text between the prefix and the
  suffix". `replace` removes every occurrence of each marker. So
  `olist_olist_dataset.csv` gets the key `dataset.csv`; see
  `KeyNames.KeyNameOfMarkerLikeName`.
  `KeyNames.KeyNameOfDatasetFile` states a condition under which the key is
  that text, and the three real file names meet it.

## Model

| member | source | states |
|---|---|---|
| KeyNames.Replace | pipeline_etl.py:39 | Python's `str.replace`, scanning from the left and replacing every non-overlapping occurrence; a replacement no longer than the pattern never lengthens the string, and one no shorter never shortens it |
| KeyNames.KeyName | pipeline_etl.py:39 | the key is the file name with "olist_" and then "_dataset.csv" removed wherever they occur, so it is never longer than the file name |
| KeyNames.KeyNameOfDatasetFile | pipeline_etl.py:39 | "olist_" + s + "_dataset.csv" gets the key s whenever scanning for the markers meets no other occurrence: "olist_" does not occur in s + "_dataset.csv", and "_dataset.csv" does not occur in s |
| KeyNames.KeyNameOfMarkerLikeName | pipeline_etl.py:39 | `replace` removes every occurrence, not only the leading one: "olist_olist_dataset.csv" gets the key "dataset.csv" |
| KeyNames.KeyNameOfDoublePrefix | pipeline_etl.py:39 | both leading copies of "olist_" are removed |
| KeyNames.KeyNameOfPlainName | pipeline_etl.py:39 | a name without an 'l' and without a 'v' always gets its own key |
| KeyNames.ReplaceAbsent | pipeline_etl.py:39 | `replace` leaves a string without the pattern unchanged |
| KeyNames.ReplaceTrailing | pipeline_etl.py:39 | when the pattern first occurs at the very end, only that occurrence is removed |
| KeyNames.KeyNameOfCustomersFile | pipeline_etl.py:27-39 | "olist_customers_dataset.csv" gets the key "customers" |
| KeyNames.KeyNameOfOrdersFile | pipeline_etl.py:27-39 | "olist_orders_dataset.csv" gets the key "orders" |
| KeyNames.KeyNameOfOrderItemsFile | pipeline_etl.py:27-39 | "olist_order_items_dataset.csv" gets the key "order_items" |
| Pipeline.OlistPipeline.constructor | pipeline_etl.py:11-19 | the pipeline holds the given data folder and store |
| Pipeline.OlistPipeline.Extract | pipeline_etl.py:21-43 | the loop returns what `ExtractFrom` gives for the three files, starting from an empty dictionary |
| Pipeline.ExtractFrom | pipeline_etl.py:34-40 | what the loop returns from a given point on: success keeps every key already stored (the value of a key that a visited file maps to is replaced) and has an entry under the key of every file visited; failure is a missing-file error naming a visited file that is absent |
| Pipeline.ExtractFromKeepsUnvisitedKeys | pipeline_etl.py:36-40 | on success, a stored entry whose key no visited file maps to keeps its value: only the keys of visited files are written |
| Pipeline.ExtractFromSucceeds | pipeline_etl.py:36-40 | the extract loop succeeds exactly when every file it visits exists |
| Pipeline.ExtractFromFailsAtFirstMissing | pipeline_etl.py:36-40 | a failed extract reports the first missing file, and every earlier file exists |
| Pipeline.ExtractThree | pipeline_etl.py:36-40 | three files that all exist are stored in list order, a later equal key overwriting an earlier one |
| Pipeline.ExtractedDictionary | pipeline_etl.py:27-43 | with all three files present, the dictionary maps "customers", "orders" and "order_items" to their files' tables |
| Pipeline.ExtractOutcome | pipeline_etl.py:27-43 | extract succeeds iff the three files exist. It then has exactly three keys, each holding its file's table unchanged. Otherwise it fails on the first missing file, in list order |
| Pipeline.RunResult | pipeline_etl.py:97-103 | the outcome of extract followed by transform: success implies that all three files exist, and a missing file makes it a missing-file error |
| Pipeline.RunUsesCustomersAndOrders | pipeline_etl.py:97-103 | a missing file makes the run fail with a missing-file error. Otherwise the run yields the transform of the customers and orders tables alone: the order items must exist but never affect the output |
| Pipeline.OlistPipeline.Load | pipeline_etl.py:82-87 | the target table is replaced by the new frame and every other table is kept |
| Pipeline.OlistPipeline.Run | pipeline_etl.py:90-105 | the run's outcome is extract followed by transform. On success the store gains the result under "pedidos_enriquecidos". On any failure, including a missing file, the store is unchanged |
| Merge.MergeRow | pipeline_etl.py:58-62 | a joined row has exactly the merged column names and carries the left row's key |
| Merge.MergeRowValues | pipeline_etl.py:58-62 | a joined row holds every left value under its left name, and every right value except the key under its right name |
| Merge.MatchesOf | pipeline_etl.py:58-62 | the pairs for one left row are exactly the right rows with that key, in right-row order |
| Merge.JoinPairs | pipeline_etl.py:58-62 | the join's index pairs are exactly the key-matching pairs, ordered by left row and then by right row, without repeats |
| Merge.OrderedCardinality | pipeline_etl.py:58-62 | a strictly ordered pair list has as many elements as its set of pairs |
| Merge.JoinedRows | pipeline_etl.py:58-62 | every joined row has the merged columns |
| Merge.InnerJoin | pipeline_etl.py:58-62 | the merge succeeds iff the key is in both frames and no two result columns share a name. A missing key gives a missing-column error. The result's columns are the left columns, then the right columns without the key, with "_x"/"_y" on shared names |
| Merge.JoinRowCount | pipeline_etl.py:58-62 | the result has exactly one row per (left row, right row) pair with equal keys |
| Merge.JoinedRowAt | pipeline_etl.py:58-62 | the k-th result row merges the k-th matching pair |
| Merge.JoinRowsComeFromMatchingPairs | pipeline_etl.py:58-62 | every result row merges a left row and a right row whose keys are equal |
| Merge.MatchingPairsGiveJoinRows | pipeline_etl.py:58-62 | every left/right pair with equal keys appears as a result row |
| Merge.JoinKeyFromBothSides | pipeline_etl.py:58-62 | every result row's key value occurs in the left frame and in the right frame |
| Merge.UnmatchedKeysDisappear | pipeline_etl.py:58-62 | a key value missing from either side is on no result row |
| Transform.ToDateTime | pipeline_etl.py:65 | a missing value becomes a missing timestamp. A text converts iff it is a valid "YYYY-MM-DD HH:MM:SS" timestamp, and its text is then exactly that timestamp's text. Anything else is a conversion error naming the value |
| Transform.EnrichRow | pipeline_etl.py:65-70 | one row after the conversion and the three assignments: its columns are the row's own, the timestamp and the three features |
| Transform.EnrichRowFeatures | pipeline_etl.py:65-70 | exactly the three feature columns are added and only the timestamp's value is replaced. Month is in 1..12 and hour in 0..23, both taken from the parsed time as is; the weekday is one of the seven names, computed from the date. A missing timestamp gives missing features |
| Transform.EnrichRows | pipeline_etl.py:65-70 | the step succeeds iff every timestamp converts. It then keeps the row count and enriches each row; otherwise the error names a value that does not convert |
| Transform.AddPurchaseFeatures | pipeline_etl.py:65-70 | without the timestamp column the step fails with a missing-column error. Otherwise it keeps the row count and adds exactly the three feature columns |
| Transform.Transform | pipeline_etl.py:52-62 | a missing "customers" or "orders" dataset is an error, customers checked first. Success implies that both datasets exist and can be joined |
| Transform.TransformSucceeds | pipeline_etl.py:52-70 | transform succeeds exactly when both datasets exist, the join is possible, the joined frame has the timestamp column, and every joined timestamp converts |
| Transform.TransformIsEnrichedJoin | pipeline_etl.py:58-70 | a successful transform is the joined frame with every row enriched, plus the three feature columns |
| Transform.TransformRowCount | pipeline_etl.py:58-62 | the output has one row per matching (customer, order) pair |
| Transform.EnrichRowKeeps | pipeline_etl.py:65-70 | a column other than the timestamp and the three features keeps its value in an enriched row |
| Transform.EnrichRowsKeep | pipeline_etl.py:65-70 | the feature step keeps the row count, and every row keeps its value in each column other than the timestamp and the features |
| Transform.TransformRows | pipeline_etl.py:58-70 | a successful transform's rows are the feature step applied to the joined rows, and the joined frame has the timestamp column |
| Transform.JoinedRowsHaveKeys | pipeline_etl.py:58-65 | when transform succeeds, every joined row has `customer_id` and `order_purchase_timestamp` |
| Transform.EnrichRowsKeepJoinKey | pipeline_etl.py:65-70 | the feature step keeps the row count and every row's `customer_id` |
| Transform.TransformKeepsJoinKeys | pipeline_etl.py:58-70 | the output has one row per joined row, and each keeps its joined row's `customer_id` |
| Transform.TransformKeysFromBothTables | pipeline_etl.py:58-62 | every output `customer_id` occurs in the customers table and in the orders table |
| Transform.TransformFeatures | pipeline_etl.py:64-70 | every output row has a parsed or missing timestamp. For a parsed one the month is in 1..12, the hour in 0..23 and the weekday is its date's name; a missing one gives missing features |
| Transform.TransformReadsOnlyCustomersAndOrders | pipeline_etl.py:52-53 | the output depends only on the "customers" and "orders" entries of the dictionary |
| Timestamps.Digits | pipeline_etl.py:65 | the zero-padded decimal text has the requested width and only digits |
| Timestamps.DigitsRoundTrip | pipeline_etl.py:65 | reading back a zero-padded number gives the number |
| Timestamps.DigitsValueRoundTrip | pipeline_etl.py:65 | a digit string is the zero-padded text of its value |
| Timestamps.Format | pipeline_etl.py:65 | a timestamp's text is 19 characters long |
| Timestamps.Parse | pipeline_etl.py:65 | a text parses iff it has the "YYYY-MM-DD HH:MM:SS" layout and names an existing date and time. The result is then valid, with a year of at most four digits |
| Timestamps.ParseFormat | pipeline_etl.py:65 | every valid timestamp with a four-digit year parses back from its text |
| Timestamps.FormatParse | pipeline_etl.py:65 | a text that parses is exactly the text of its timestamp |
| Calendar.DaysInMonth | pipeline_etl.py:65 | months have 28 to 31 days; 29 only for February of a leap year |
| Calendar.DaysBeforeYearEnd | pipeline_etl.py:69 | the twelve month lengths add up to the year's length |
| Calendar.MultiplesStep | pipeline_etl.py:69 | the count of multiples of 4, 100 or 400 grows by one exactly at a multiple |
| Calendar.YearStartClosedForm | pipeline_etl.py:69 | the closed-form day count before a year equals the year-by-year sum of year lengths |
| Calendar.DayNumber | pipeline_etl.py:69 | every date from 0001-01-01 on has a non-negative day number |
| Calendar.WeekdayIndex | pipeline_etl.py:69 | the weekday index lies in 0..6 |
| Calendar.DayName | pipeline_etl.py:69 | the weekday name is one of the seven English names |
| Calendar.NextDateCountsOneDay | pipeline_etl.py:69 | the day after a valid date is valid and one day later, across month and year ends |
| Calendar.NextDateNextWeekday | pipeline_etl.py:69 | consecutive dates have consecutive weekday names, Sunday followed by Monday |
| Calendar.NewYear2018IsMonday | pipeline_etl.py:69 | 2018-01-01 is a Monday |
| Calendar.March15th2018IsThursday | pipeline_etl.py:69 | 2018-03-15 is a Thursday |
| Calendar.UnixEpochIsThursday | pipeline_etl.py:69 | 1970-01-01 is a Thursday |
| Scenario.PurchaseTextFields | pipeline_etl.py:65 | "2018-01-01 10:00:00" has the timestamp layout and its fields are 2018, 1, 1, 10, 0, 0 |
| Scenario.PurchaseTimeParses | pipeline_etl.py:65 | "2018-01-01 10:00:00" converts to 2018-01-01 10:00:00 |
| Scenario.JoinCanOutgrowSmallerInput | pipeline_etl.py:58-62 | one customer with two orders gives two joined rows from a one-row customers table |
| Scenario.EndToEnd | pipeline_etl.py:52-70 | customers c1 and c2 plus one order of c1 at 2018-01-01 10:00:00 give exactly one row: c1, month 1, "Monday", hour 10 |
| Scenario.EndToEndRun | pipeline_etl.py:97-103 | the same data run through the whole pipeline gives that single row whatever the order items file holds |
| Scenario.RunStoresScenarioRow | pipeline_etl.py:97-103 | a pipeline over that folder, started on an empty store, runs and leaves the target table holding exactly that one row: c1, month 1, "Monday", hour 10 |

## Left out

- Reading CSV files and joining paths are not modelled. The folder is a map
  from file name to the table `read_csv` would return; a parse error in a
  present file is not modelled.
- The SQL engine is not modelled. `create_engine` and the connection are
  absent; the store is a map from table name to table. Store failures,
  column types, the dropped index and any rollback are outside the model.
- Console progress messages (`print`) and the `__main__` block are not
  modelled.
- Timestamp parsing covers only the "YYYY-MM-DD HH:MM:SS" form with a
  four-digit year. This is the form of the Olist column. `pd.to_datetime`
  also reads other layouts, fractional seconds and numbers, and it limits
  years to 1677–2262; the model does neither.
- Column order and column dtypes are not modelled. A frame's columns form a
  set. Integer cells model the month and the hour; other numbers, such as
  floats, are absent.
- Inner-join row order follows left rows, then right rows, as current pandas
  documents. Older pandas versions ordered rows differently.
- Merge.InnerJoin: a name clash between a "_x"/"_y" suffixed name and a
  column of the other side is reported as `DuplicateColumns`. pandas instead
  produces a frame with repeated column labels, which map-shaped rows cannot
  hold. A clash within one side is a merge error in pandas, as in the model.
- The `order_items` table is only read and keyed; none of its columns are
  modelled.
