# Part collection ingestion, modelled in Dafny

This project models two loading scripts for client part collection data.

- **`src/sonar_results.py`** turns each record's nested `sonar_results` value into observation rows and loads them into `parsed_sonar_data`. The value may be JSON text, a Python-literal string, a native list, or empty.
  - Decoding uses a three-parser chain and keeps only dictionary entries.
  - Each observation's `delivery` is clamped to the BIGINT range.
  - Each observation's `price` is kept only when it is zero or its magnitude lies between 1e-10 and 1e28.
  - Rows are loaded in batches of 10,000. Each batch is bulk-inserted; if that fails, it is rolled back and retried one row at a time.
- **`src/ETL_client_part_collection_data_processing_scripts.py`** coerces the columns of the flat part frame in place, then inserts the frame in batches of 20,000 rows, with one `executemany` and one commit per batch.

Modules:

- **`Python`** (`python.dfy`): the dynamic values the scripts handle (`Value`, `Float`) and what the scripts rely on from the language.
  - Modelled directly: `str.strip`, `str.replace`, `list()`, `dict.get`, `int()` of a float, and the null test of `pandas.notnull`.
  - Parameters in a `Runtime`: `str`, `int`, `float`, `json.loads`, `ast.literal_eval` and `pandas.to_datetime(errors='coerce')`, whose internals are not modelled.
- **`Batching`** (`batching.dfy`): `num_batches = ceil(total / size)` and the slice each batch covers. It proves coverage, contiguity, order and the row counts.
- **`Sink`** (`sink.dfy`): the connection, as a trace of insert, commit and rollback calls. Whether an insert succeeds comes from a `Database` predicate, one for bulk statements and one for single rows. Replaying a trace gives the committed table.
- **`SonarNormaliser`** (`sonar_normaliser.dfy`): the row loop of lines 54-159, as a method proved against the specification function `Run`.
- **`SonarLoader`** (`sonar_loader.dfy`): lines 161-293. It covers the observation frame, null replacement, the two tuple preparations, the two-tier batch loader, and the early exit when there are no observations.
- **`PartLoader`** (`part_loader.dfy`): the ETL script. The frame is a class whose column sequence is overwritten in place by `CoerceTypes`. It also covers the batch loop and what it commits.

**The model follows the code as written.** Lines 72-92 and their comments show that text values are meant to be trimmed and then parsed. In the code, however, the whole parse ladder (lines 72-108) sits inside the `except ValueError` handler of the `pd.isna` test (lines 66-69). `pd.isna` returns False for a string without raising. So a text value skips the parsers entirely and goes on to line 111 with the `parsed_data` left by an earlier record. If no earlier record assigned `parsed_data`, the result is a `NameError`, which the row handler at line 158 catches.

The model makes the outcome of the NA test an input of each record (`NaTrue`, `NaFalse`, `NaRaises`) and carries `parsed_data` from record to record, so both behaviours are captured:

- `NaFalseReusesParsedData` and `StaleParsedDataExample` state what actually happens to text.
- `TextRecordOutcome`, `EncodingInvariant` and `ExtremePriceExample` state what the parsers do when a value does reach them.

## Model

| member | source | states |
|---|---|---|
| Python.GetFindsKey | src/sonar_results.py:143-155 | `entry.get(key)` returns a value stored under the key when the key is present, and None when it is absent |
| Python.Strip | src/sonar_results.py:74 | the stripped text has no leading or trailing white space; it is a contiguous slice of the input starting after the leading white space; it is empty iff the input is all white space; only white space follows it in the input |
| Python.ReplaceQuotes | src/sonar_results.py:87 | same length, every `'` becomes `"`, every other character is kept |
| Python.ToList | src/sonar_results.py:99-105 | `list()` keeps a list's or iterable's items, gives a string's characters, one per item and in order, and a dict's keys in insertion order, and raises for anything else |
| Python.IntOfFloat | src/sonar_results.py:260 | `int()` of a float truncates a finite value, raises OverflowError for an infinity and ValueError for NaN |
| Python.NullToNone | src/sonar_results.py:194 | a cell becomes None iff it is None, NaT or NaN; otherwise it is unchanged |
| Batching.NumBatches | src/ETL_client_part_collection_data_processing_scripts.py:50-52 | the batch count is the least n with n * size >= total; it is zero iff there are no rows |
| Batching.Batch | src/ETL_client_part_collection_data_processing_scripts.py:65-68 | batch i is non-empty, has end_idx - start_idx <= size rows, and only the last batch may be short |
| Batching.BatchBounds | src/sonar_results.py:188-191 | batch i lies within the rows; consecutive batches meet; the last one ends at total_rows |
| Batching.BatchesCover | src/ETL_client_part_collection_data_processing_scripts.py:65-80 | the batches concatenated in order are exactly the rows, each once |
| Batching.BatchSizesAddUp | src/ETL_client_part_collection_data_processing_scripts.py:65-80 | the batch lengths add up to total_rows |
| Batching.ReportedPrefixSum | src/ETL_client_part_collection_data_processing_scripts.py:80 | the counts end_idx - start_idx reported for the first k batches add up to where batch k - 1 ends |
| Batching.ReportedCountsAddUp | src/ETL_client_part_collection_data_processing_scripts.py:80 | the counts end_idx - start_idx of all batches add up to total_rows |
| Batching.TwentyFiveThousandRows | src/ETL_client_part_collection_data_processing_scripts.py:50-52 | 25,000 rows give two batches, of 20,000 and 5,000 rows |
| Sink.ReplayConcat | src/sonar_results.py:233-289 | replaying two call sequences one after the other is replaying their concatenation |
| Sink.FailedInsertThenRollback | src/sonar_results.py:237-239 | a failed insert followed by a rollback leaves the committed rows unchanged and nothing pending |
| Sink.InsertThenCommit | src/sonar_results.py:233-234 | a successful insert followed by a commit appends the inserted rows to the table |
| Sink.InsertThenSettle | src/sonar_results.py:270-289 | one single-row attempt appends the row if it succeeded and changes nothing if it failed |
| SonarNormaliser.ClampDelivery | src/sonar_results.py:125-127 | an int delivery is kept iff abs(d) <= 9223372036854775807; a kept value is a BIGINT |
| SonarNormaliser.CoerceDelivery | src/sonar_results.py:120-129 | None stays None; a ValueError or TypeError from int() gives None; any other exception escapes; otherwise the value is kept iff it is in range |
| SonarNormaliser.ClampPrice | src/sonar_results.py:137-139 | a price is kept iff it is finite and zero or 1e-10 <= abs(p) <= 1e28 (both bounds as doubles, both included); a kept price fits NUMERIC(38,10) |
| SonarNormaliser.CoercePrice | src/sonar_results.py:132-141 | None stays None; a ValueError or TypeError from float() gives None; any other exception escapes; otherwise the clamp decides |
| SonarNormaliser.MakeObservation | src/sonar_results.py:118-157 | an entry gives an observation iff neither coercion escapes; the observation carries the record's part_id |
| SonarNormaliser.ObservationFields | src/sonar_results.py:143-155 | every other field is `entry.get(key)` (None for a missing key); delivery and price are the coerced values |
| SonarNormaliser.EntryRows | src/sonar_results.py:115-157 | a non-dict element adds nothing; a dict adds at most one row; it adds none iff a coercion escaped |
| SonarNormaliser.DictsMembers | src/sonar_results.py:115-116 | the entries processed are exactly the dict elements of the list |
| SonarNormaliser.Fanout | src/sonar_results.py:115-157 | a list adds no more rows than it has dict elements, all carrying the record's part_id |
| SonarNormaliser.FanoutOnePerDict | src/sonar_results.py:111-157 | when no coercion escapes, one row per dict element, in list order, non-dicts ignored |
| SonarNormaliser.FirstSuccess | src/sonar_results.py:78-92 | the result is None iff every attempt failed; otherwise it is the first successful attempt |
| SonarNormaliser.ParserChainInOrder | src/sonar_results.py:78-92 | the nested try chain is json.loads, then ast.literal_eval, then json.loads on the quote-replaced text; first success wins; it fails iff all three fail |
| SonarNormaliser.Step | src/sonar_results.py:55-159 | a skipped record adds no rows; every row carries `str(row['part_id'])` |
| SonarNormaliser.RunPartIds | src/sonar_results.py:54-159 | every row in sonar_rows carries the part_id of some record |
| SonarNormaliser.StepFromReach | src/sonar_results.py:110-116 | after the decoding ladder, a record adds rows only when it was not skipped and parsed_data holds a list, and then exactly that list's fan-out; parsed_data is what the ladder left |
| SonarNormaliser.RunSnoc | src/sonar_results.py:54-159 | one more record appends its step's rows and passes its parsed_data on |
| SonarNormaliser.Decode | src/sonar_results.py:62-108 | the NA test and decoding ladder compute the skip reason and the new parsed_data as the specification ladder does |
| SonarNormaliser.AppendEntry | src/sonar_results.py:116-157 | one entry, with delivery and price reassigned in place, appends exactly its `EntryRows` |
| SonarNormaliser.AppendFanout | src/sonar_results.py:115-157 | the entry loop appends exactly the specification fan-out |
| SonarNormaliser.Normalise | src/sonar_results.py:54-159 | the row loop, with `continue` and parsed_data carried across iterations, produces exactly `Run(records).rows` |
| SonarNormaliser.NoneOrNaAddsNothing | src/sonar_results.py:62-68 | a None value, or one whose NA test is True, adds nothing and leaves parsed_data as it was |
| SonarNormaliser.BlankTextAddsNothing | src/sonar_results.py:73-75 | text that strips to "[]" or "" is skipped without error and adds nothing |
| SonarNormaliser.TextRecordOutcome | src/sonar_results.py:73-113 | parsed text is skipped iff all three parsers fail; otherwise the first success is parsed_data; a list fans out and a non-list is skipped |
| SonarNormaliser.EncodingInvariant | src/sonar_results.py:78-92 | two texts whose first successful parse gives the same document give the same rows and parsed_data |
| SonarNormaliser.ListRecordOutcome | src/sonar_results.py:93-96 | a native list becomes parsed_data and fans out; an empty one is skipped |
| SonarNormaliser.NaFalseReusesParsedData | src/sonar_results.py:66-69 | a value whose NA test is False keeps the previous parsed_data, fans it out under its own part_id, and hits an unbound name if there is none |
| SonarNormaliser.StaleParsedDataExample | src/sonar_results.py:66-113 | a list record of two dicts followed by a text record gives four rows: the second record repeats the first record's entries |
| SonarNormaliser.ExtremePriceExample | src/sonar_results.py:78-155 | if the parsers are reached, a single-quoted payload rejected by json.loads is read by literal_eval; a price of 1e30 is nulled; missing keys give None |
| SonarNormaliser.DeliveryBounds | src/sonar_results.py:125 | -2^63 is nulled, ±(2^63 - 1) are kept, 2^63 is nulled |
| SonarNormaliser.PriceBounds | src/sonar_results.py:137 | 0 and both double bounds are kept; half the lower bound, the exact real 10^28 (just above the double 1e28), the infinities and NaN are nulled |
| SonarLoader.ToFrameRow | src/sonar_results.py:168-172 | a frame row carries the observation's result_id, part_id, amount, currency, delivery, price, status and supplier cells; date_sonar is NaT iff it does not parse as a date, and otherwise the parsed timestamp |
| SonarLoader.Frame | src/sonar_results.py:168 | the frame has one row per observation, in order |
| SonarLoader.Cells | src/sonar_results.py:216-228 | a tuple has eleven cells, with part_id in position 1 and the given delivery and price in positions 5 and 6 |
| SonarLoader.CellsColumnOrder | src/sonar_results.py:216-228 | every cell sits at its column's position in the insert statement: result_id, part_id, amount, currency, date_sonar, the given delivery and price, status, supplier_country, supplier_id, supplier_name |
| SonarLoader.PrepareDelivery | src/sonar_results.py:202-207 | a number or None is kept; anything else becomes the int() result when int() succeeds, and None exactly when it raises |
| SonarLoader.PreparePrice | src/sonar_results.py:209-214 | a number or None is kept; anything else becomes the float() result when float() succeeds, and None exactly when it raises |
| SonarLoader.RetryDelivery | src/sonar_results.py:258-262 | None stays None; otherwise the result is int(float(x)) when both calls succeed, and None exactly when either raises |
| SonarLoader.RetryPrice | src/sonar_results.py:264-268 | None stays None; otherwise the result is float(x) when it succeeds, and None exactly when it raises |
| SonarLoader.PrepareAll | src/sonar_results.py:198-228 | one bulk tuple per row, in order |
| SonarLoader.Salvaged | src/sonar_results.py:245-289 | the fallback commits at most as many rows as the batch has |
| SonarLoader.PrepareTuples | src/sonar_results.py:198-230 | the appending loop builds exactly the bulk tuples |
| SonarLoader.RetryRows | src/sonar_results.py:243-289 | the fallback loop makes the specified calls; successful_inserts counts the rows whose single insert succeeded; failures are reported at start_idx + j |
| SonarLoader.LoadBatch | src/sonar_results.py:196-293 | a batch takes exactly one of two paths: bulk insert and commit, or rollback then the row-by-row retry; gives the matching report |
| SonarLoader.RetryCallsInOrder | src/sonar_results.py:245-289 | row j's insert is call 2j and its commit or rollback is call 2j + 1, rows in original order |
| SonarLoader.FailedAtExact | src/sonar_results.py:288-293 | start_idx + j is reported iff row j's single insert fails; reports lie inside the batch, increasing; salvaged plus failed rows equal the batch size |
| SonarLoader.BatchCallsCommit | src/sonar_results.py:233-289 | a batch's calls leave committed all its tuples (bulk path) or exactly the salvaged ones (fallback), with nothing pending |
| SonarLoader.RetryCommits | src/sonar_results.py:245-289 | the fallback's calls commit exactly the salvaged rows, in order |
| SonarLoader.OneBadRow | src/sonar_results.py:237-293 | with one rejected row, every other row is committed in order; that row alone is reported, at its absolute index; the count is size - 1 |
| SonarLoader.AllAcceptedSalvaged | src/sonar_results.py:245-289 | if every single insert succeeds, the fallback commits every retry tuple |
| SonarLoader.SalvagedConcat | src/sonar_results.py:245-289 | salvaging is compositional over consecutive runs of rows |
| SonarLoader.DenullAll | src/sonar_results.py:191-194 | null replacement applies to every row of the batch slice |
| SonarLoader.LoadBatchAt | src/sonar_results.py:189-194 | batch i is the slice [start_idx, end_idx) with nulls replaced, and its load gives that batch's report and calls |
| SonarLoader.LoadAll | src/sonar_results.py:188-293 | one report per batch, in order; the calls are the batches' calls in order; the committed table is the batches' committed tuples in order |
| SonarLoader.AllBulkAccepted | src/sonar_results.py:188-235 | when every bulk insert succeeds, every row's tuple is committed once, in frame order |
| SonarLoader.PrepareKeepsNormalised | src/sonar_results.py:199-214 | the bulk validation never alters a normalised part_id, delivery or price |
| SonarLoader.RetryMatchesPrepare | src/sonar_results.py:254-268 | when float() is exact on the values involved, a row's retry tuple equals its bulk tuple |
| SonarLoader.RunSonar | src/sonar_results.py:161-293 | no observations means no calls are made (early exit); otherwise there is one report per batch, each the batch's outcome (bulk count, or successful_inserts and the start_idx + j failures), and the calls and committed table are the batches' in order |
| PartLoader.AsTimestamp | src/ETL_client_part_collection_data_processing_scripts.py:45 | a cell becomes NaT iff it does not parse as a date, and its timestamp otherwise |
| PartLoader.TimestampColumn | src/ETL_client_part_collection_data_processing_scripts.py:45 | the date column is converted cell by cell, keeping its length |
| PartLoader.TextColumn | src/ETL_client_part_collection_data_processing_scripts.py:46-47 | `astype(str)` turns every cell into its string, keeping the length |
| PartLoader.Coerce | src/ETL_client_part_collection_data_processing_scripts.py:45-47 | coercion keeps the frame's shape |
| PartLoader.RowOf | src/ETL_client_part_collection_data_processing_scripts.py:74 | a row tuple lists the row's cell of each column, in column order |
| PartLoader.DenullTuple | src/ETL_client_part_collection_data_processing_scripts.py:71 | every cell of a tuple goes through null replacement |
| PartLoader.DenullTuples | src/ETL_client_part_collection_data_processing_scripts.py:71-74 | one tuple per row, in order |
| PartLoader.DenullTuplesConcat | src/ETL_client_part_collection_data_processing_scripts.py:71-74 | null replacement distributes over concatenation |
| PartLoader.CoercedTuple | src/ETL_client_part_collection_data_processing_scripts.py:45-74 | after coercion, the text columns hold strings in insert order; date_added is the only column that can be null, and it is null iff its value did not parse |
| PartLoader.PartFrame.constructor | src/ETL_client_part_collection_data_processing_scripts.py:42 | a frame of nine columns of equal height |
| PartLoader.PartFrame.CoerceTypes | src/ETL_client_part_collection_data_processing_scripts.py:45-47 | the columns are overwritten in place with their coerced values; the shape is kept |
| PartLoader.PartFrame.Rows | src/ETL_client_part_collection_data_processing_scripts.py:74 | the frame's rows, in order, each in column order |
| PartLoader.PartFrame.BatchTuples | src/ETL_client_part_collection_data_processing_scripts.py:66-74 | batch i's data_tuples has end_idx - start_idx tuples |
| PartLoader.PartFrame.CallsUpToCommit | src/ETL_client_part_collection_data_processing_scripts.py:65-78 | k successful batches commit the tuples of every row before the end of batch k - 1, each once, in order |
| PartLoader.PartFrame.Load | src/ETL_client_part_collection_data_processing_scripts.py:50-80 | every reported batch was accepted and reported with end_idx - start_idx, which equals its tuple count; a failed executemany stops the run before its commit |
| PartLoader.PartFrame.LoadCommits | src/ETL_client_part_collection_data_processing_scripts.py:65-80 | the committed table is the reported batches' tuples in order; the reported counts add up to it; with no failure, it is every row and the counts add up to total_rows |
| PartLoader.Ingest | src/ETL_client_part_collection_data_processing_scripts.py:45-80 | the script from coercion to load: the frame is coerced in place; each reported batch was accepted and reported with end_idx - start_idx rows; a halt happens only at the first rejected executemany; the table holds the coerced, null-replaced rows of the reported batches |

## Left out

- Connecting, creating tables, the `pip` install line, reading the parquet file (DuckDB or pandas), the `COUNT(*)` and `LIMIT 10` queries, closing the connection and every `print`. These are I/O or observation only.
- SQL execution: whether a statement is accepted is the `Database` parameter. Commit and rollback are modelled only by their effect on a trace. A commit that itself raises is not modelled.
- The internals of `json.loads`, `ast.literal_eval`, `str()`, `int()`, `float()` and `pandas.to_datetime`. They are the `Runtime` parameters. `str()` is assumed not to raise.
- `pd.isna`: its outcome is an input tag of each record, not computed from the value.
- Float numerics: a finite float is a real, so binary rounding is not modelled. `math.ceil(total / size)` is computed on exact integers.
- SonarLoader.ToFrameRow: does not model pandas dtype inference. In the source, a delivery column that contains None becomes float64, so non-null deliveries reach the tuples as floats, and large values lose precision. The model keeps them as ints.
- PartLoader.PartFrame: the file's column order is assumed to be the insert statement's order (`Columns`), as `itertuples` relies on it.
- PartLoader.PartFrame.Load: an `executemany` that raises ends the script. The model stops and reports the batch in `halted`. It does not model how the open transaction is discarded when the process exits, beyond the rule that a failed statement commits nothing.
- Python.Get: returns the first entry with the key. Dict keys are unique, so this is `dict.get`.
- The row-preparation handler at lines 229-230 and the `except` at lines 106-108 never fire in the model. Every step they guard is total or modelled as a caught failure.
