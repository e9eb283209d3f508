# ynab-sync import and deduplication engine, in Dafny

This project models the core of ynab-sync, a service that moves bank transactions into
YNAB from two sources. The first is CSV uploads parsed with a bank or mapping profile. The
second is Akahu, which is fetched on demand or by a scheduled per-account job. The model
covers:

- **Fingerprints** (`Fingerprint`, `CsvParser.GenerateTransactionHash`). A fingerprint is
  the first 32 hex characters of SHA-256 over `"<iso date>:<amount>:<payee or ''>:<memo or ''>"`.
  SHA-256 is an uninterpreted function. Python's `isoformat` is written out (`Calendar`), and
  so is its float rendering for amounts below 1e12 (`Fingerprint.AmountText`).
- **The ledger of imported transactions** (`Dedup`, class `Dedup.ImportLedger`). It is a
  table of rows with a unique fingerprint. It offers the hash snapshot, in-place duplicate
  flagging over an array, single and batch recording with the commit's all-or-nothing
  uniqueness check, the history query and per-source statistics.
- **The YNAB client** (`YnabClient`): date normalisation, the per-call occurrence counter
  behind `YNAB:<milliunits>:<date>:<n>` import ids, extraction of the created and duplicate
  ids, the empty-input shortcut, and the deleted-account filter.
- **The Akahu client** (`AkahuClient`): cursor pagination over a given sequence of pages,
  the account filter, field defaults, and the YNAB row shape with its payee expression.
- **The scheduled sync job** (`Scheduler`), as a state machine over a `SyncLog` row, an
  `AkahuAccount` row and the ledger. Class `Models.SyncStore` holds the account and log
  tables. Class `SyncJobs.JobTable` is the scheduler's job table.
- **The HTTP handlers' rules** (`AkahuRouter`, `CsvRouter`, class `Mappings.ProfileTable`).
  These cover interval snapping, the schedule guards, link upsert and unlink, the manual sync
  partition, the preview, CSV parsing and import filtering, and the mapping-profile table.

Every outside call is a parameter of the operation that makes it. This covers the Akahu
fetch (`Result<seq<AkahuTransaction>, string>`, or a sequence of pages), the YNAB response
(`Result<CreateResponse, string>`) and the clock (`now`, an `Instant` in seconds). Operations
that make such a call also return what they sent (`sent`, `requests`). Amounts are integer
milliunits (`Money`).

The model keeps the code's behaviour where it differs from what a reader might expect:

- A batch recorded with a shorter non-empty id list is truncated by `zip`, yet the call
  still returns the full batch length (`Dedup.ReturnedCountExceedsRecorded`).
- A single clashing fingerprint fails the whole batch commit (`Dedup.BatchFailsOnlyOnClash`).
- The sync paths test the fingerprint of `(date, amount, merchant or description, no memo)`.
  The row they record is fingerprinted from `(payee, memo = description)`. The two agree only
  when the description is empty and the merchant is absent
  (`Scheduler.TestedAndRecordedInputsDiffer`).
- The payee expression `merchant or description[:50] if description else None` parses as
  `(merchant or description[:50]) if description else None`. So a merchant is dropped when
  the description is empty (`AkahuClient.MerchantDroppedWithoutDescription`).
- Failed runs leave `next_sync_at` alone. The catch-all path leaves the sync log in its
  started state (`Scheduler.OtherEndKeepsSchedule`, `Scheduler.BatchRun`).
- Unlinking an account does not remove its scheduled job (`AkahuRouter.UnlinkAkahuAccount`).

## Model

| member | source | states |
|---|---|---|
| Fingerprint.GenerateHash | backend/app/services/dedup.py:17-26 | the fingerprint is 32 characters, all lower-case hex digits |
| Fingerprint.AbsentFieldsHashAsEmpty | backend/app/services/dedup.py:25 | an absent payee or memo hashes exactly as `""`, and an omitted memo as `""` |
| Fingerprint.EqualInputsEqualHashes | backend/app/services/dedup.py:25-26 | equal hash-input strings give equal fingerprints (determinism) |
| Fingerprint.SameHeadInputs | backend/app/services/dedup.py:25 | with date and amount fixed, two hash inputs are equal iff their `payee:memo` tails are equal |
| Fingerprint.InputStartsWithDate | backend/app/services/dedup.py:25 | the hash input begins with the 10-character ISO date of the transaction |
| Fingerprint.HashInputFixesDate | backend/app/services/dedup.py:25 | equal hash inputs imply equal calendar dates |
| Fingerprint.SeparatorAmbiguity | backend/app/services/dedup.py:25 | payee `a:b` with memo `c` and payee `a` with memo `b:c` give the same input and the same fingerprint |
| Fingerprint.AmountText | backend/app/services/dedup.py:25 | the amount text contains a decimal point and no colon, and starts with `-` iff the amount is negative |
| Calendar.IsoDate | backend/app/services/dedup.py:25 | `date.isoformat()` is 10 characters `YYYY-MM-DD`, digits except the two dashes |
| Calendar.IsoDateInjective | backend/app/services/ynab_client.py:111 | distinct dates have distinct ISO texts |
| Calendar.IsoDateTime | backend/app/services/dedup.py:25 | the datetime text has length 19, plus 7 with microseconds, plus 6 with an offset, and starts with the ISO date and `T` |
| CsvParser.GenerateTransactionHash | backend/app/services/csv_parser.py:78-81 | the CSV fingerprint is the ledger's fingerprint of the same four fields, 32 characters long |
| Dedup.ImportLedger.ExistingHashes | backend/app/services/dedup.py:28-33 | a hash is in the snapshot iff some stored row carries it |
| Dedup.ImportLedger.IsDuplicate | backend/app/services/dedup.py:51-58 | true iff some stored row has that fingerprint |
| Dedup.ImportLedger.CheckDuplicates | backend/app/services/dedup.py:35-49 | returns the same array; each element's `isDuplicate` becomes (hash in the stored hashes) and no other field changes |
| Dedup.ImportLedger.RecordImport | backend/app/services/dedup.py:60-88 | a stored fingerprint fails with an integrity error and no change; otherwise exactly one row with the next id, the given fields and `now` is appended |
| Dedup.ImportLedger.RecordImportsBatch | backend/app/services/dedup.py:90-127 | return value and new table are those of `RecordBatch` on the old table, and the table stays valid |
| Dedup.PaddedIds | backend/app/services/dedup.py:105 | a non-empty id list is used as is; a missing or empty list becomes one null per transaction |
| Dedup.EmptyBatchRecordsNothing | backend/app/services/dedup.py:102-103 | an empty batch returns 0 and leaves the table unchanged |
| Dedup.BatchSize | backend/app/services/dedup.py:105-127 | a failed commit keeps the table; a successful one returns `len(transactions)`, keeps the old rows as a prefix and adds `min(len(txs), len(ids))` rows for a non-empty id list, else `len(txs)` rows |
| Dedup.BatchRowContents | backend/app/services/dedup.py:107-123 | the k-th added row has the fingerprint of the k-th transaction's own fields, its fields, the batch's budget and account, and the k-th id (or none when padded) |
| Dedup.PendingRowContents | backend/app/services/dedup.py:107-123 | the k-th pending row pairs the k-th transaction with the k-th id and gets the k-th fresh row id |
| Dedup.BatchRowsShape | backend/app/services/dedup.py:107 | `zip` yields `min` of the two lengths; row k carries transaction k's fingerprint and id `first + k` |
| Dedup.BuildBatchRows | backend/app/services/dedup.py:107-124 | the loop builds exactly the zipped pending rows |
| Dedup.UniqueAppend | backend/app/models/database.py:16 | appending rows keeps fingerprints unique iff they are unique among themselves and absent from the table |
| Dedup.BatchFailsOnlyOnClash | backend/app/services/dedup.py:107-126 | the batch commit fails iff a zipped transaction's fingerprint is already stored or two zipped transactions share one |
| Dedup.BatchKeepsTableValid | backend/app/models/database.py:13-16 | recording a batch keeps row ids and fingerprints unique |
| Dedup.FreshIdsAppend | backend/app/models/database.py:13 | auto-increment ids from the next free id keep ids unique |
| Dedup.ReturnedCountExceedsRecorded | backend/app/services/dedup.py:105-127 | with `0 < len(ids) < len(txs)` the call returns `len(txs)` but adds only `len(ids)` rows |
| Dedup.HistoryWithinMatching | backend/app/services/dedup.py:135-143 | each matching row comes back at most as often as it is stored, and when the limit does not cut (including a negative limit, SQLite's `LIMIT -1`) the history is a permutation of the matching rows |
| Dedup.HistoryRowsMatch | backend/app/services/dedup.py:135-143 | exactly `min(limit, matching)` rows for a non-negative limit and every matching row for a negative one, each a stored row of the requested source |
| Dedup.HistoryNewestFirst | backend/app/services/dedup.py:135-137 | rows come in non-increasing `imported_at` order |
| Dedup.HistoryKeepsNewest | backend/app/services/dedup.py:135-137 | a matching row left out is no newer than any row returned |
| Dedup.HistoryNoRepeats | backend/app/services/dedup.py:135-143 | a history that returns a once-stored row twice (and leaves another out) is not an answer to the query |
| Dedup.HistoryIsNewestMatching | backend/app/services/dedup.py:129-143 | the result satisfies the whole history specification: the capped count, stored rows of the source each returned no more often than stored, newest first, and no omitted match newer than a returned row |
| Dedup.ImportLedger.ImportHistory | backend/app/services/dedup.py:129-143 | the query result meets the history specification for the current table (count, source, no repeats beyond the stored rows, order, newest kept), for any integer `limit` (default 100) |
| Dedup.AddOne | backend/app/services/dedup.py:156-162 | one grouped row bumps its source's count or appends a new group with count 1 |
| Dedup.AddOneTotal | backend/app/services/dedup.py:156-162 | adding one row raises the sum of the group counts by exactly one |
| Dedup.GroupStep | backend/app/services/dedup.py:156-162 | grouping one more row keeps the groups distinct, exact and complete |
| Dedup.GroupCounts | backend/app/services/dedup.py:156-162 | the groups are distinct sources, each count is that source's row count, and every row's source has a group |
| Dedup.ImportLedger.ImportStats | backend/app/services/dedup.py:145-167 | `total_imported` is the row count and equals the sum of the `by_source` counts, which are exact, positive and cover every source |
| YnabClient.NormalizeDate | backend/app/services/ynab_client.py:101-105 | a datetime gives its date part, a date passes through, and a string succeeds iff it parses as ISO |
| YnabClient.NormalizeAllOk | backend/app/services/ynab_client.py:99-105 | normalising the batch succeeds iff every date does, and then gives each row's date in order |
| YnabClient.FirstErrorWins | backend/app/services/ynab_client.py:99-105 | the first unparsable date aborts the batch with its error |
| YnabClient.GenerateImportIdInjective | backend/app/services/ynab_client.py:71-76 | equal import ids have equal date, amount and occurrence |
| YnabClient.BaseKeyInjective | backend/app/services/ynab_client.py:111 | equal base keys have equal milliunits and date |
| YnabClient.CountsStep | backend/app/services/ynab_client.py:111-113 | each counter step yields 1 plus the earlier count of that key, and the map stays equal to the counts so far |
| YnabClient.ConvertStep | backend/app/services/ynab_client.py:99-126 | one loop iteration extends the counters and the rows exactly as the row specification does |
| YnabClient.BuildYnabTransactions | backend/app/services/ynab_client.py:96-126 | the loop's result equals the converted-rows specification, including the date error |
| YnabClient.ConvertedRowsShape | backend/app/services/ynab_client.py:99-126 | one row per input in order, with the account id, `cleared`, the amount, payee, memo and ISO date |
| YnabClient.ImportIdsDistinct | backend/app/services/ynab_client.py:110-115 | the import ids of one call are pairwise distinct |
| YnabClient.CountKeyGrows | backend/app/services/ynab_client.py:112 | a later row with the same key gets a strictly larger occurrence |
| YnabClient.OccurrenceExample | backend/app/services/ynab_client.py:110-115 | two equal rows get occurrences 1 and 2 |
| YnabClient.ExtractIds | backend/app/services/ynab_client.py:135-141 | created ids are the returned transactions' ids in order; duplicates default to `[]` |
| YnabClient.CreateTransactions | backend/app/services/ynab_client.py:78-141 | a date error aborts before sending; otherwise the converted rows are sent and the response's ids are returned |
| YnabClient.ImportReport | backend/app/services/ynab_client.py:163-170 | a response yields its created and duplicate ids; an error passes through |
| YnabClient.ImportTransactions | backend/app/services/ynab_client.py:143-170 | an empty list returns empty lists without sending; otherwise the converted rows are sent |
| YnabClient.VisibleAccounts | backend/app/services/ynab_client.py:43-58 | never longer than the input, and as long iff no account is deleted |
| YnabClient.VisibleAccountsInOrder | backend/app/services/ynab_client.py:47-58 | the result is exactly the non-deleted accounts, in their original order, each with all its fields (id, name, type, on-budget, closed, balance) |
| AkahuClient.ConvertItem | backend/app/services/akahu_client.py:92-105 | an item of another account is skipped; a missing `_id` raises; otherwise the fields with `""` and `None` defaults |
| AkahuClient.ConvertItemsKeepsAccount | backend/app/services/akahu_client.py:94-95 | with an account id, every kept transaction belongs to that account |
| AkahuClient.ConvertItemsKeepsAll | backend/app/services/akahu_client.py:94-95 | without an account id, every item is kept |
| AkahuClient.ConvertItemsFails | backend/app/services/akahu_client.py:92-105 | a page fails iff one of its items fails to convert |
| AkahuClient.ConvertItemsStopsAt | backend/app/services/akahu_client.py:92-105 | the first failing item's error is the page's error |
| AkahuClient.LastPage | backend/app/services/akahu_client.py:107-110 | the loop stops at the first page that fails or has no `cursor.next` |
| AkahuClient.AccumulateKeepsAccount | backend/app/services/akahu_client.py:81-112 | across pages, every transaction kept belongs to the requested account |
| AkahuClient.AccumulateKeepsAll | backend/app/services/akahu_client.py:81-112 | without an account filter, every item of every page is kept |
| AkahuClient.AccumulateStep | backend/app/services/akahu_client.py:89-105 | reading one more page appends its converted items or fails with its error |
| AkahuClient.AppendPage | backend/app/services/akahu_client.py:92-105 | the inner loop appends exactly the page's converted items |
| AkahuClient.ReadPage | backend/app/services/akahu_client.py:89-110 | one iteration extends the accumulation and says whether this is the last page |
| AkahuClient.GetTransactions | backend/app/services/akahu_client.py:53-112 | requests are made up to the last page, with the default date range and each page's cursor; the result is the pages' items accumulated in order |
| AkahuClient.GetAccountTransactions | backend/app/services/akahu_client.py:114-125 | delegates with the same account and dates; all results belong to that account |
| AkahuClient.AkahuPayee | backend/app/services/akahu_client.py:140 | no payee when the description is empty; otherwise the merchant, falling back to the first 50 characters of the description |
| AkahuClient.MerchantDroppedWithoutDescription | backend/app/services/akahu_client.py:140 | a merchant with an empty description gives no payee |
| AkahuClient.TransactionsToYnabFormat | backend/app/services/akahu_client.py:127-145 | one row per transaction in order, with memo = description and source id = id |
| AkahuClient.GetAccounts | backend/app/services/akahu_client.py:37-51 | a missing `_id` raises; otherwise one account per item with `Unknown Account`, `unknown` and `Unknown` defaults |
| CsvParser.RequiredCell | backend/app/services/csv_parser.py:131-135 | a required cell exists iff its mapping is present and the column is in the row |
| CsvParser.CleanAmount | backend/app/services/csv_parser.py:135-137 | the cleaned amount text is the stripped input with exactly the `$`, `,` and space characters removed, every other character kept in order |
| CsvParser.OptionalField | backend/app/services/csv_parser.py:144-154 | payee or memo is present iff its mapping is set and the cell is not NA, and is then the stripped text |
| CsvParser.ParseRow | backend/app/services/csv_parser.py:129-167 | a row parses iff date and amount do; the preview carries them, the optional fields, `is_duplicate = False` and its own fingerprint |
| CsvParser.InversionNegates | backend/app/services/csv_parser.py:140-141 | inversion negates the amount and changes nothing else |
| CsvParser.ParsedRowsOrigins | backend/app/services/csv_parser.py:128-172 | the previews are exactly the parsable rows, in file order, each unflagged with its own fingerprint |
| CsvParser.ParseCsv | backend/app/services/csv_parser.py:100-174 | the loop's result equals the parsed-rows specification |
| CsvParser.ToTransactionCreates | backend/app/services/csv_parser.py:176-193 | no preview is dropped iff none is flagged |
| CsvParser.ToTransactionCreatesOrigins | backend/app/services/csv_parser.py:182-193 | the creates are the unflagged previews, in order, with source `csv` and the given source account |
| CsvParser.BankProfilesUniform | backend/app/services/csv_parser.py:14-75 | exactly asb, anz, westpac, bnz and kiwibank; each is `%d/%m/%Y`, not inverted, skips 0 rows, maps `Date`, `Amount`, payee and memo |
| CsvRouter.Flagged | backend/app/services/dedup.py:46-47 | same length and order; only `is_duplicate` changes, to hash in the stored set |
| CsvRouter.FlagAgainstLedger | backend/app/routers/csv.py:75-77 | the parsed previews are flagged against the ledger's current hashes |
| CsvRouter.UploadMappings | backend/app/routers/csv.py:59-64 | the mapping has exactly the keys date, amount, payee and memo, taken from the form |
| CsvRouter.ParseUpload | backend/app/routers/csv.py:39-79 | the upload's rows are parsed with the form mapping and flagged against the ledger |
| CsvRouter.ParseWithProfile | backend/app/routers/csv.py:83-116 | an unknown profile gives 400; otherwise parsing with that profile's settings, then flagging |
| CsvRouter.KeptCreatesOrigins | backend/app/routers/csv.py:134-144 | the creates are the items not flagged duplicate (when skipping), in order, with source `csv` |
| CsvRouter.KeepAllWithoutSkipping | backend/app/routers/csv.py:143 | without skipping, every item is kept |
| CsvRouter.YnabDictsConvert | backend/app/routers/csv.py:155-165 | the YNAB dictionaries built from creates always convert |
| CsvRouter.SentAndRecordedAlign | backend/app/routers/csv.py:155-174 | the k-th row sent to YNAB and the k-th row recorded come from the same create, and the k-th returned id is attached to it |
| CsvRouter.ImportCsvTransactions | backend/app/routers/csv.py:120-180 | empty input gives 400; if nothing survives the filter, `imported 0` and all skipped without calling YNAB; otherwise the survivors are sent, recorded, and the counts returned |
| Scheduler.PartitionCounts | backend/app/services/scheduler.py:116-140 | skipped plus kept equals fetched |
| Scheduler.PartitionOrigins | backend/app/services/scheduler.py:116-138 | the two output lists are aligned and hold the non-skipped transactions in fetch order; every other transaction was skipped |
| Scheduler.NoSkipKeepsAll | backend/app/routers/akahu.py:243 | with duplicate skipping off nothing is skipped |
| Scheduler.SkippedSnoc | backend/app/services/scheduler.py:119-121 | one more transaction bumps the skip count iff its fingerprint is stored |
| Scheduler.KeptSnoc | backend/app/services/scheduler.py:119-138 | one more transaction is appended to the kept list iff it is not skipped |
| Scheduler.PartitionFetched | backend/app/services/scheduler.py:112-140 | the loop's lists and counter equal the partition specification |
| Scheduler.PartitionConverts | backend/app/services/scheduler.py:123-128 | the YNAB dictionaries of kept transactions always convert |
| Scheduler.TestedAndRecordedInputsDiffer | backend/app/services/scheduler.py:116-134 | the tested and the recorded hash inputs coincide iff the description is empty and the merchant is absent |
| Scheduler.RecordedTestHash | backend/app/services/dedup.py:108 | the recorded fingerprint is that of (payee, memo = description), and equals the tested one in that case |
| Scheduler.LookbackDays | backend/app/services/scheduler.py:75 | `days_to_sync or 7` |
| Scheduler.RunFrom | backend/app/services/scheduler.py:61-204 | every exit keeps the log's id and the link's account id |
| Scheduler.RunKeepsLogOrigin | backend/app/services/scheduler.py:61-65 | no exit changes the log's account, trigger or start time |
| Scheduler.RunKeepsLinkSettings | backend/app/services/scheduler.py:83-204 | no exit changes the link's YNAB target or schedule settings |
| Scheduler.RunFromSuccess | backend/app/services/scheduler.py:95-194 | a success sets the log to success at `now`, the link's sync time to `now`, `next_sync_at` to `now + interval`, and `last_sync_imported` to the log's count |
| Scheduler.RunFromOtherEnd | backend/app/services/scheduler.py:83-204 | a non-success keeps `last_synced_at`, `next_sync_at`, `last_sync_imported` and the ledger |
| Scheduler.RunFromLogStatus | backend/app/services/scheduler.py:83-204 | a failed log implies a failed link with an error and completion time; the log stays running iff the batch commit fails |
| Scheduler.SuccessMovesSchedule | backend/app/services/scheduler.py:95-194 | the same success rule, for a whole run from the stored link |
| Scheduler.OtherEndKeepsSchedule | backend/app/services/scheduler.py:83-204 | the same non-success rule, for a whole run |
| Scheduler.RunLogStatus | backend/app/services/scheduler.py:83-204 | the same log-status rule, for a whole run |
| Scheduler.FetchFailureRun | backend/app/services/scheduler.py:83-91 | a fetch failure gives exactly the failed log and the failed link with the error text; nothing else changes |
| Scheduler.RunCountsAddUp | backend/app/services/scheduler.py:93-140 | every committed log has `found` = fetched and `skipped + imported candidates = found` |
| Scheduler.RunFromCounts | backend/app/services/scheduler.py:93-140 | found is the fetched count and skipped the partition's count, or 0 when nothing was fetched |
| Scheduler.NothingFetchedRun | backend/app/services/scheduler.py:95-105 | zero fetched ends as success, `No transactions found`, nothing imported, rescheduled, ledger unchanged |
| Scheduler.AllSkippedRun | backend/app/services/scheduler.py:142-153 | all duplicates ends as success with `All n transactions were duplicates`, rescheduled, ledger unchanged |
| Scheduler.YnabFailureRun | backend/app/services/scheduler.py:157-171 | a YNAB failure marks the log failed and prefixes the link message with `YNAB import failed: `; nothing is recorded and `next_sync_at` is kept |
| Scheduler.BatchRun | backend/app/services/scheduler.py:173-204 | after YNAB accepts, a clean commit records the batch and reports the id counts; a clashing commit keeps the ledger and the started log, and fails the link only if that commit succeeds |
| Scheduler.TwinTransactionsAbortBatch | backend/app/services/scheduler.py:130-179 | two kept transactions with equal date, amount, merchant and description make the batch commit fail |
| Scheduler.RecordedTransactionsFoundAgain | backend/app/services/scheduler.py:174-179 | after a clean commit, every recorded transaction's fingerprint is in the ledger |
| Scheduler.Commit | backend/app/services/scheduler.py:90 | a commit writes the link and the log row and keeps the store valid |
| Scheduler.StartRun | backend/app/services/scheduler.py:61-71 | appends a running, scheduled log with the next id and sets the link to running |
| Scheduler.FinishRun | backend/app/services/scheduler.py:73-204 | store and ledger end as the run specification says, and the YNAB rows sent are those of the specification |
| Scheduler.ImportFetched | backend/app/services/scheduler.py:93-204 | the same, from a non-empty fetch |
| Scheduler.ImportAndRecord | backend/app/services/scheduler.py:155-204 | the same, from the YNAB call onwards |
| Scheduler.RecordAndCommit | backend/app/services/scheduler.py:173-204 | records the batch, then commits success with the id counts, or takes the catch-all path on a clash |
| Scheduler.SyncAkahuAccountJob | backend/app/services/scheduler.py:40-206 | an unlinked account changes nothing and fetches nothing; otherwise the store, the log table and the ledger end as the run specification says |
| Scheduler.RunLinkedAccount | backend/app/services/scheduler.py:60-204 | the same, for a linked account, with the fetch starting `days_to_sync or 7` days back |
| SyncJobs.JobId | backend/app/services/scheduler.py:229 | the job id is `sync_` followed by the account id |
| SyncJobs.JobOf | backend/app/services/scheduler.py:242-249 | the job runs that account every `schedule_interval_hours` |
| SyncJobs.OneJobPerAccount | backend/app/services/scheduler.py:229 | no two job ids serve the same account |
| SyncJobs.Scheduled | backend/app/services/scheduler.py:224-249 | the account's job is present iff scheduling is enabled, with that account's interval; other jobs are untouched |
| SyncJobs.ArmedIncludesEnabled | backend/app/services/scheduler.py:282-289 | start-up arms every enabled and linked account |
| SyncJobs.ArmedKeepsOthers | backend/app/services/scheduler.py:282-289 | start-up keeps any job no armed account replaces |
| SyncJobs.ArmedAddsNothingElse | backend/app/services/scheduler.py:282-289 | every job added at start-up belongs to an enabled and linked account |
| SyncJobs.JobTable.RemoveJob | backend/app/services/scheduler.py:232-235 | removing a missing job is a no-op; otherwise only that job goes |
| SyncJobs.JobTable.ScheduleAccountSync | backend/app/services/scheduler.py:224-251 | the table becomes `Scheduled` of the old one |
| SyncJobs.JobTable.RemoveAccountSchedule | backend/app/services/scheduler.py:254-263 | only `sync_<id>` is removed |
| SyncJobs.JobTable.InitializeScheduler | backend/app/services/scheduler.py:266-293 | does nothing when already running; otherwise starts and arms the enabled and linked accounts |
| Schemas.DefaultScheduleConfig | backend/app/schemas/akahu.py:45-49 | defaults are enabled, 6 hours and 7 days, within bounds |
| Models.NewAkahuAccount | backend/app/models/database.py:83-93 | a new link has scheduling off, interval 6, 7 days, 0 imported, and no sync times or status |
| Models.NewSyncLog | backend/app/models/database.py:107-121 | a new log has its four counters at 0, no completion or error, and the start time `now` |
| Models.NextId | backend/app/models/database.py:13 | the auto-increment id is positive and above every existing id |
| AkahuRouter.NearestIndex | backend/app/routers/akahu.py:357 | `min` with a key picks the first element of least distance |
| AkahuRouter.SnapInterval | backend/app/routers/akahu.py:353-357 | the result is a valid interval, a valid interval is kept, it is nearest, and ties go to the smaller |
| AkahuRouter.SnapTies | backend/app/routers/akahu.py:357 | 3 snaps to 2 and 18 to 12 |
| AkahuRouter.SnapOutliers | backend/app/routers/akahu.py:357 | 5 snaps to 4 and 9 to 6 |
| AkahuRouter.ScheduledLink | backend/app/routers/akahu.py:359-369 | stores enabled and days, a valid interval, `next_sync_at` now + interval when enabled and none otherwise; sync history is kept |
| AkahuRouter.SetAccountSchedule | backend/app/routers/akahu.py:333-382 | unknown gives 404 and unlinked gives 400, both with no change; otherwise the link is updated and the job armed or removed to match |
| AkahuRouter.ApplySchedule | backend/app/routers/akahu.py:353-382 | the link and the job table follow the snapped configuration |
| AkahuRouter.DisabledLinkHasNoJob | backend/app/routers/akahu.py:399-405 | a disabled link has no next run and no job |
| AkahuRouter.DisableAccountSchedule | backend/app/routers/akahu.py:386-407 | unknown gives 404; otherwise scheduling is off, `next_sync_at` is none and the job is removed |
| AkahuRouter.FindAccount | backend/app/routers/akahu.py:100-103 | the first account with that id, or none when there is none |
| AkahuRouter.LinkedRowTargets | backend/app/routers/akahu.py:89-113 | the linked row has the requested targets; a new row has the schema defaults; an existing row keeps its schedule and sync history |
| AkahuRouter.LinkAkahuToYnab | backend/app/routers/akahu.py:76-118 | an existing row is updated in place, otherwise one row is inserted (a failed account fetch gives 500); one row per account |
| AkahuRouter.UnlinkAkahuAccount | backend/app/routers/akahu.py:122-138 | the row is gone, present or not, and the reply is the same |
| AkahuRouter.ManualSyncCounts | backend/app/routers/akahu.py:236-269 | skipped plus kept equals fetched, and nothing is skipped with skipping off |
| AkahuRouter.ManualEndSkipped | backend/app/routers/akahu.py:297-302 | the reply's skip count is the partition's |
| AkahuRouter.ManualSyncImported | backend/app/routers/akahu.py:297-302 | `imported = len(transaction_ids)` with the response's ids and duplicate count |
| AkahuRouter.ManualSyncFailureKeepsState | backend/app/routers/akahu.py:203-302 | an error or an early return changes neither link nor ledger; a sync stamps `last_synced_at` |
| AkahuRouter.ManualEndKeepsState | backend/app/routers/akahu.py:271-302 | the same, from the YNAB call onwards |
| AkahuRouter.SyncAkahuAccount | backend/app/routers/akahu.py:188-302 | unlinked gives 400 with no change; otherwise the reply, link and ledger follow the manual sync specification, and no log is written |
| AkahuRouter.SyncLinked | backend/app/routers/akahu.py:209-302 | the same, for a linked account |
| AkahuRouter.ImportManual | backend/app/routers/akahu.py:271-302 | the same, from the YNAB call onwards |
| AkahuRouter.RecordManual | backend/app/routers/akahu.py:285-302 | records the batch and stamps the link; a clash gives 500 |
| AkahuRouter.PreviewRow | backend/app/routers/akahu.py:171-182 | the row is flagged iff the tested fingerprint is stored, and carries the transaction's fields |
| AkahuRouter.PreviewFlagsStored | backend/app/routers/akahu.py:166-182 | flagged iff some stored row has that fingerprint |
| AkahuRouter.PreviewTransactions | backend/app/routers/akahu.py:142-184 | a fetch error gives 500; otherwise one preview per fetched transaction in order |
| AkahuRouter.PreviewAll | backend/app/routers/akahu.py:169-184 | the loop builds one preview per transaction in order |
| Mappings.IndexOfId | backend/app/routers/mappings.py:61-67 | the position of the profile with that id, or none iff no profile has it |
| Mappings.NameTaken | backend/app/routers/mappings.py:29-32 | true iff some profile has that name |
| Mappings.DefaultIsUnique | backend/app/routers/mappings.py:138-155 | after set-default exactly the target is default; ids and fields are unchanged |
| Mappings.CreatedIsFound | backend/app/routers/mappings.py:38-52 | the new profile's id is fresh and finds the new profile |
| Mappings.DeletedIsGone | backend/app/routers/mappings.py:121-127 | the deleted id is gone and every other profile remains |
| Mappings.ProfileTable.List | backend/app/routers/mappings.py:16-19 | a permutation of the profiles, ordered by name |
| Mappings.ProfileTable.Get | backend/app/routers/mappings.py:56-69 | found iff some profile has the id; otherwise 404 |
| Mappings.ProfileTable.Create | backend/app/routers/mappings.py:23-52 | a taken name gives 400 with no change; otherwise exactly one profile is appended |
| Mappings.ProfileTable.Update | backend/app/routers/mappings.py:73-109 | unknown gives 404; renaming onto another profile's name gives 400; otherwise all editable fields are replaced |
| Mappings.ProfileTable.Delete | backend/app/routers/mappings.py:113-129 | unknown gives 404; otherwise exactly that profile is removed |
| Mappings.ProfileTable.SetDefault | backend/app/routers/mappings.py:133-157 | unknown gives 404 with no change; otherwise the target becomes the only default |

## Left out

- HTTP plumbing (FastAPI routing, status-code exceptions, httpx requests, timeouts). Status
  codes become `HttpError` results. Fetch and import outcomes are parameters.
- SHA-256, `datetime.fromisoformat`, `strptime`, `float()`, pandas cell reading and the
  host time zone. These are uninterpreted functions. No property depends on what they compute.
- Floating point. Amounts are integer milliunits, so `dollars_to_milliunits` is the identity,
  written inline where the source calls it, and `round(amount*1000)` is not modelled. `milliunits_to_dollars` is not part of this model.
- Clocks. `datetime.utcnow()` and `datetime.now()` are the parameters `now` and `localNow`.
  A run uses one `now` for all its stamps. `updated_at` and `created_at` defaults are plain
  fields.
- APScheduler internals: timer firing, coalescing, `max_instances`, misfire grace,
  `shutdown_scheduler`, and `get_scheduled_jobs` (with the `/schedules` endpoint). The job
  table is a map from job id to account and interval.
- SQLAlchemy sessions and engines. Tables are in-memory sequences and maps. A failed commit
  is modelled as rolling back the whole transaction.
- `get_akahu_accounts` (the enrichment of the account list with stored links),
  `get_account_schedule`, `get_sync_logs`, `get_sync_log` and `test_connection`. These are
  read-only pass-throughs.
- `detect_columns`, `preview_csv`, the `skip_rows` argument of `parse_csv`, and the upload's
  UTF-8/Latin-1 decoding. The model starts from the parsed rows. `raw_data` is not kept.
- `backend/app/routers/ynab.py`, `main.py`, `config.py` and `dependencies.py` are not part
  of this model.
- AkahuRouter.PreviewTransactions: the `account_id` and `days` query parameters are folded
  into the given fetch outcome.
- AkahuClient.GetTransactions: the accumulation is proved only for page sequences whose loop
  ends (`Terminates`). A server that never stops returning cursors is not modelled.
- Fingerprint.AmountText: follows Python's float rendering only for amounts below 1e12 in
  magnitude with at most three decimals. From 1e12 up, `repr` prints the shortest text that
  round-trips the nearest double, which can differ from the exact decimal
  (`10000000000000.001` prints as `10000000000000.002`). From 1e16 up, it uses exponent form
  (`1e+16`). A CSV or Akahu amount with more decimals (`12.3456`) reaches the fingerprint
  unrounded, and `Money` cannot hold it. An inverted CSV amount of zero is the float `-0.0`,
  rendered `-0.0` (csv_parser.py:140-141), while the model's integer zero renders `0.0`.
- CsvRouter.ImportCsvTransactions: a posted item without `date` or `amount` makes the source
  raise `KeyError` (a 500), and a non-boolean `is_duplicate` is decided by its truthiness.
  The model's item type always has a date and an amount. Its duplicate flag is an optional
  boolean, and an item is dropped only when the flag is `Some(true)`.
- AkahuClient.ConvertItem: a `description` that is present but null makes the source raise,
  because `AkahuTransaction.description` is a `str` (schemas/akahu.py:32) and `None` fails
  validation. A `merchant` or `category` that is present but null also makes the source raise,
  at `.get("name")` (akahu_client.py:103-104). The model's item has no null: a `None` field
  is a missing key, so these three failures are not modelled.
- Mappings.ProfileTable.List: sorting by name uses lexicographic order of code points, as
  SQLite's default collation does. Ties among equal names are impossible, because names are
  unique.
