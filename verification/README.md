# Verified model of a multi-instance Transmission manager

A Dafny model of the parts of the manager where correctness is not obvious from reading one function, with proofs
of what they promise. Each module follows one part of the program:

- `Text`, `Ordering`: the string helpers and the sort the program takes from Go's library.
- `Dialect`, `QueryParts`, `PlaceholderMeaning`: the lexer that rewrites `?` placeholders to `$k` for PostgreSQL. What
  it does to any query is told by the query's parts (quoted text, comments, placeholders), without the lexer. The
  result is another spelling of the same reading of the query, and its exact conditions for meaning the same and for
  being bound twice are given.
- `TopoSort`: the order in which tables are imported. It is the least topological order, and failure is exactly
  cyclicity, with exactly the tables that reach a cycle reported.
- `RestorePlan`, `RestoreExecute`, `RestoreConvergence`: planning a restore as a difference of two states, executing
  it against an instance whose calls may fail or half succeed, and what the instance then looks like. Any
  failures leave it in a state from which a later restore still works. Each mode keeps
  its promise exactly when the labels used are listed or, unless the restore is complete, already there; so a
  complete restore converges exactly when the snapshot lists every label its torrents use.
- `QueueProtocol`: callers of QueueRun and workers as a state machine over the in-flight map and the job channel, for
  every interleaving.
- `Scheduler`: the decision whether a backup is missed, and the spacing of runs it enforces over a whole life.
- `BackupArchive`, `BackupStore`, `Retention`, `BackupJob`: backups, retention, deletion and the collection of
  content-addressed blobs.
- `UniquePath`: distinct archive paths.
- `StringPool`, `BackupItems`: interned strings, and items stored as rows of ids and read back by a join.
- `WriterTx`: the writer mutex, database/sql's transaction handles and the engine behind them.
- `DirScan`: the table of scanned files with its two keys.
- `LogStream`: line reassembly and the ring buffer.

Code that changes state is modelled as methods on classes or arrays with the source's loops, and each is proved
against a function or predicate on values; the properties are then lemmas about those. Calls into other systems
(the Transmission instance, SQL statements that fail for reasons outside the tables, file writes) are parameters or
nondeterministic answers. Tables are maps and sequences. Names of members follow the source.

Where code and documentation disagree, the code is modelled:

- `internal/database/db.go:400-402` says that after a failed commit the transaction remains active until Rollback is
  called. For database/sql it is over at once, so the rollback releases the mutex but does not reach the engine
  (`WriterTx.RollbackAfterFailedCommit`); `WriterTx.WedgedExactly` says exactly when the connection is stuck.
- `internal/models/dirscan.go:1322-1325` skips the deletion of duplicates for an empty path, so there the promise of
  one row per file id has an exception (`DirScan.OneRowPerFileID`, `DirScan.EmptyPathKeepsDuplicate`).
- The double binding of queries is harmless only under a condition on the query (`PlaceholderMeaning.BindTwice`,
  `PlaceholderMeaning.RebindTwiceCounterexample`); every query written without `$` whose placeholders are not followed
  by a digit meets it.

`dafny verify dfyconfig.toml` checks the whole project.

## Model

| member | source | states |
|---|---|---|
| `Dialect.ParseDollarQuoteTag` | internal/database/dialect.go:186-204 | finds the dollar-quote tag exactly when the text starts with one: `$`, tag characters, `$` |
| `Dialect.ScanLexeme` | internal/database/dialect.go:86-180 | one turn of the scanning loop: for every combination of the quote and comment flags it consumes the next lexeme, moves to the region after it and says whether it is a placeholder |
| `Dialect.RebindQuestionToDollar` | internal/database/dialect.go:68-184 | the loop, with its shortcut for queries without `?`, computes the rewriting of the whole query |
| `Dialect.NoQuestionMark` | internal/database/dialect.go:69-71 | the shortcut is right: a text without `?` is its own rewriting, in any region |
| `QueryParts.PartBound` | internal/database/dialect.go:81-180 | one part in front of the rest of a query, said without the lexer: a `?` in code gets the next number; a quoted literal of any content with its quotes doubled, a comment and a dollar quote are copied through their first closer, or to the end if there is none, and code resumes right behind |
| `QueryParts.PartsBound` | internal/database/dialect.go:68-184 | the rewriting of a query written part by part is the same parts with the placeholders numbered in order |
| `QueryParts.EveryQueryHasParts` | internal/database/dialect.go:81-180 | every query is written that way |
| `QueryParts.RebindByParts` | internal/database/dialect.go:68-184 | so the rewriting of any query is determined by its parts |
| `PlaceholderMeaning.RebindSpelling` | internal/database/dialect.go:68-184 | query and result are two spellings of one reading: quoted, commented and dollar-quoted bytes and all other text are unchanged, only top-level `?`s are replaced |
| `PlaceholderMeaning.NumberedInOrder` | internal/database/dialect.go:176-179 | the emitted numbers are 1..n in order |
| `PlaceholderMeaning.ReadBack` | internal/database/dialect.go:68-184 | the result read back with numbered references is the query read with positional ones exactly when the query has no `$` reference of its own and no placeholder or lone `$` that tag characters join to a `?` or `$`, and no placeholder followed by a digit |
| `PlaceholderMeaning.RebindPreservesMeaning` | internal/database/dialect.go:68-184 | under exactly these three conditions, filling the i-th `?` of the query gives the statement that filling each `$k` of the result with argument k gives, whatever the arguments |
| `PlaceholderMeaning.RebindIdempotent` | internal/database/dialect.go:68-184 | a query in which no placeholder or lone `$` is joined to a `?` or `$` is bound once and for all |
| `PlaceholderMeaning.RebindIdempotentIff` | internal/database/dialect.go:68-184 | rewriting the result again changes nothing exactly unless the query joins a placeholder or lone `$` into a tag that text emitted later closes again in front of a `?` then in code |
| `PlaceholderMeaning.RebindIdempotentPlain` | internal/database/dialect.go:68-184 | a query written without `$`, with no placeholder followed by a digit, is bound once and for all, joined or not |
| `PlaceholderMeaning.HarmlessQueries` | internal/database/dialect.go:68-184 | queries that are not joined, quote no `?`, or are written without `$` and such digits all meet the exact condition |
| `PlaceholderMeaning.RebindIdempotentUnquoted` | internal/database/dialect.go:68-184 | a query that quotes no `?` is bound once and for all, joined or not |
| `PlaceholderMeaning.RebindTwiceCounterexample` | internal/database/dialect.go:68-184 | the query ``?? '$1$ ?'`` violates the exact condition, and a second rewriting changes it |
| `PlaceholderMeaning.BindTwice` | internal/database/db.go:321-322 | at the call sites that bind an already bound query (here, and in getStmt, deleteStmt and execWithRetry) the second binding changes nothing exactly if the engine is SQLite or the query meets the exact condition of RebindIdempotentIff |
| `TopoSort.TopoSortSQLiteTables` | internal/database/sqlite_to_postgres.go:442-506 | succeeds exactly when names are distinct and in-set dependencies are acyclic; the result has every table once, after its dependencies, and is lexicographically least among such orders; on failure the report is sorted, names exactly the tables from which a dependency path reaches a cycle (none if only names repeat), and names each as often as the input lists it |
| `TopoSort.BuildIndegrees` | internal/database/sqlite_to_postgres.go:456-464 | indegrees and child lists count the dependencies between tables of the set, ignoring others |
| `TopoSort.Release` | internal/database/sqlite_to_postgres.go:480-486 | releasing the children of a placed table keeps the queue sorted, without repetition, and equal to the tables that wait for nothing |
| `TopoSort.PlaceNext` | internal/database/sqlite_to_postgres.go:475-487 | one turn of the main loop keeps counts and queue true to the tables placed |
| `TopoSort.GreedyIsLeast` | internal/database/sqlite_to_postgres.go:442-491 | always continuing with the least ready table gives the least topological order |
| `TopoSort.UnplacedExactlyReachCycle` | internal/database/sqlite_to_postgres.go:493-505 | when nothing is ready, what is not placed is exactly what reaches a cycle |
| `TopoSort.AcyclicIffNoneReaches` | internal/database/sqlite_to_postgres.go:493-505 | a graph is acyclic exactly when no table reaches a cycle |
| `TopoSort.SortDependsOnGraphAlone` | internal/database/sqlite_to_postgres.go:442-506 | the order depends on the dependency graph alone, not on the order of the input slice or of map iteration |
| `RestorePlan.BuildCategoryPlan` | internal/backups/restore_plan.go:462-511 | lists, sorted and once each, the missing categories, the differing ones (not incremental) and the extra ones (complete) |
| `RestorePlan.BuildTagPlan` | internal/backups/restore_plan.go:513-546 | the same for tags |
| `RestorePlan.BuildTorrentPlan` | internal/backups/restore_plan.go:548-604 | the same for torrents, whose update entries carry the computed changes |
| `RestorePlan.BuildRestorePlan` | internal/backups/restore_plan.go:288-314 | the plan of a snapshot, a live state and a mode |
| `RestorePlan.CreatesPlanned` | internal/backups/restore_plan.go:466-505 | for any states: the categories to create are sorted, and named as those of the snapshot, after trimming, that are not live, with their trimmed paths |
| `RestorePlan.UpdatesPlanned` | internal/backups/restore_plan.go:487-507 | those to update are live ones with another path, unless the restore is incremental |
| `RestorePlan.DeletesPlanned` | internal/backups/restore_plan.go:490-508 | names to delete, of categories and tags, are those the snapshot lacks, if the restore is complete |
| `RestorePlan.TagsPlanned` | internal/backups/restore_plan.go:513-546 | tags to create are those of the snapshot, after trimming, that are not live |
| `RestorePlan.AddsPlanned` | internal/backups/restore_plan.go:548-597 | torrents to add are those of the snapshot whose normalized hash is not live, carrying the snapshot's data |
| `RestorePlan.TorrentChangesPlanned` | internal/backups/restore_plan.go:560-603 | torrents to update are live ones with a change listed, those to delete live ones the snapshot lacks, as the mode allows |
| `RestorePlan.ChangesListed` | internal/backups/restore_plan.go:637-696 | a change is listed exactly for a differing category or tag set, as supported, and for an infohash or size the snapshot has and the live torrent differs in, as reported only |
| `RestorePlan.FilterInPlace` | internal/backups/restore_plan.go:236-249 | overwriting the front of a slice while reading it computes the filtered slice |
| `RestorePlan.ApplyRestorePlanOptions` | internal/backups/restore_plan.go:214-285 | removes the entries of excluded hashes, after normalizing the hashes |
| `RestorePlan.ExcludedAreGone` | internal/backups/restore_plan.go:214-285 | no entry of the filtered plan names an excluded hash and every other entry is kept, in order |
| `RestorePlan.ExcludedByHash` | internal/backups/restore_plan.go:214-285 | an entry is dropped exactly if some given hash that is not blank equals its hash up to surrounding white space and letter case |
| `RestorePlan.PlanIsDetermined` | internal/backups/restore_plan.go:288-314 | whatever order maps are walked in, normalized states have one plan |
| `RestorePlan.PlansAreNested` | internal/backups/restore_plan.go:462-604 | operations planned for an incremental restore are planned for overwriting, and those for a complete one; incremental plans update and delete nothing, overwriting ones delete nothing |
| `RestoreExecute.ApplyBatch` | internal/backups/restore_execute.go:163-177 | a batch call with individual retry after its failure files every target exactly once: as applied exactly what a call answered with success, as failed exactly what its retry refused; without a reported failure all targets took effect |
| `RestoreExecute.ApplyCategoryPlan` | internal/backups/restore_execute.go:128-180 | every planned category operation is reported once, as applied or failed just as its call was answered, and without failure the categories are as planned |
| `RestoreExecute.ApplyTagPlan` | internal/backups/restore_execute.go:182-235 | the same for tags |
| `RestoreExecute.ApplyTorrentPlan` | internal/backups/restore_execute.go:237-401 | every planned add and delete of a hash not excluded is reported once, as its call was answered or as failed if its blob is missing or unreadable; a torrent not added is reported as updated exactly if one of its label calls succeeded; no call names an excluded hash, provided cached blobs hold the torrents they are listed for; the torrents added are resumed if the options say so; without failure the torrents are as planned, and through any failures the live state stays consistent if cached blobs have normalized hashes |
| `RestoreExecute.ExecuteRestore` | internal/backups/restore_execute.go:75-126 | plans and executes: every operation and update is accounted for under any failures, partially if the caller gave up; the report says applied exactly what calls did and failed exactly what calls refused or had no blob, and is free of errors if every call succeeded, every blob was there and nobody gave up; a dry run or missing writers touch nothing; no excluded hash is ever named, provided cached blobs hold the torrents they are listed for; without a reported failure the plan has taken full effect; through any failures a normalized plan keeps the live state consistent |
| `RestoreExecute.NoFailureNoError` | internal/backups/restore_execute.go:75-126 | a truthful report of a restore in which every call succeeded and every blob was there has no error, and the restore was not cancelled |
| `RestoreExecute.ExcludedOnce` | internal/backups/restore_execute.go:111-115 | excluding a second time while executing changes nothing |
| `RestoreConvergence.RestoreResult` | internal/backups/restore_execute.go:75-401 | a restore without failures leaves what its mode promises (snapshot entries where the snapshot decides, live ones elsewhere, nothing else; although removals cascade onto torrents on the way) exactly if every torrent the snapshot decides uses only labels that the snapshot lists or, unless the restore is complete, the instance already has |
| `RestoreConvergence.IncrementalKeepsLive` | internal/backups/restore_plan.go:462-604 | an incremental restore leaves every live entry unchanged, even of a snapshot that uses unlisted labels |
| `RestoreConvergence.PlanKeepsClosed` | internal/backups/restore_execute.go:128-401 | whatever the plan, the instance goes on knowing every label its torrents carry |
| `RestoreConvergence.CompleteRestoreConverges` | internal/backups/restore_execute.go:75-401 | after a complete restore without failures or exclusions, categories with paths, tags, torrents and their labels equal the snapshot's exactly when the snapshot lists every label its torrents use |
| `RestoreConvergence.OpenSnapshot` | internal/backups/restore_plan.go:316-370 | there are normalized snapshots that do not: a torrent may use an unlisted category |
| `RestoreConvergence.ReplanIsEmpty` | internal/backups/restore_plan.go:462-696 | in each mode, planning finds no creates, deletes, path changes or supported torrent changes exactly when the restore would leave the live state as it is; for a complete restore, exactly when the live state agrees with the snapshot |
| `RestoreConvergence.RestoreSettles` | internal/backups/restore_plan.go:462-696 | in each mode, a state that a restore has made as promised is one that the same restore leaves alone |
| `RestoreConvergence.SupportedChanges` | internal/backups/restore_plan.go:637-696 | a torrent has no supported change exactly when its category and its set of tags agree |
| `RestoreConvergence.PlanIsNormal` | internal/backups/restore_plan.go:288-370 | a plan made from normalized states, with or without exclusions, creates and adds only normalized names and hashes |
| `RestoreConvergence.RestoreAndReplan` | internal/backups/restore_execute.go:75-126 | the whole run in any mode: plan, execute, plan again; whatever fails, the instance stays normalized and knows the labels its torrents use, and the second plan is empty exactly if the restore would leave the state alone; if nothing failed or was excluded, the mode's promise holds exactly if the labels used are listed, and then nothing is left to apply; and if every call succeeds and every blob is listed and readable, nothing is reported as failed |
| `RestoreConvergence.RestoreAfterOthers` | internal/backups/restore_execute.go:75-126 | after any sequence of restores that failed, were cancelled or were of other snapshots, a complete restore that reports no failure makes the instance agree with its snapshot exactly if that lists its labels |
| `QueueProtocol.Service.MarkInstance` | internal/backups/service.go:1120-1128 | takes the claim on an instance exactly if nobody has it |
| `QueueProtocol.Service.ClearInstance` | internal/backups/service.go:1075-1085 | gives up the claim of that very run and no other, and its progress |
| `QueueProtocol.Service.TakeClaim` | internal/backups/service.go:1131-1133 | the caller's claim step: it either takes the claim or is answered that the instance is busy |
| `QueueProtocol.Service.PublishRun` | internal/backups/service.go:1148-1150 | the caller's publishing step: the map holds the number of the created run |
| `QueueProtocol.Service.SendJob` | internal/backups/service.go:1152-1163 | the caller's sending step: the bounded channel takes the job at its end, or the caller waits exactly while it is full |
| `QueueProtocol.Service.GiveUp` | internal/backups/service.go:1143-1154 | the caller's step after a failed creation or a cancellation: it gives up its own claim |
| `QueueProtocol.Service.ReceiveJob` | internal/backups/service.go:520-526 | the worker's receiving step: it gets the oldest job, or waits exactly while there is none |
| `QueueProtocol.Service.FinishJob` | internal/backups/service.go:629-629 | the worker's last step for a job: it gives up the claim of that run |
| `QueueProtocol.StepKeepsInv` | internal/backups/service.go:517-630 | every step of every caller and worker keeps claims exclusive and backed by the in-flight map, runs numbered and stored, the channel first-in-first-out, and progress with the worker that executes the run |
| `QueueProtocol.EveryRunKeepsInv` | internal/backups/service.go:1130-1167 | so it holds after any interleaving of any number of callers and workers |
| `QueueProtocol.OneRunPerInstance` | internal/backups/service.go:1120-1167 | in every interleaving an instance is in the in-flight map exactly while a run of it is being created, queued or executed; there is then exactly one, and the map holds its number once published |
| `QueueProtocol.BusyExactlyWhenOwned` | internal/backups/service.go:1131-1133 | QueueRun answers busy exactly when a run of the instance is under way |
| `QueueProtocol.DeliveredOnce` | internal/backups/service.go:517-528 | queued runs reach workers in order, each at most one worker and none lost, and the queue never exceeds its capacity |
| `QueueProtocol.WaitsExactly` | internal/backups/service.go:517-528 | a caller with a job waits exactly while two jobs per worker are queued, a worker exactly while none is; no other step waits |
| `QueueProtocol.LateClearHarmless` | internal/backups/service.go:1075-1085 | clearing again for a finished run never releases a newer claim |
| `QueueProtocol.ClearReleasesOwnClaim` | internal/backups/service.go:629-629 | the clear that ends a run releases its instance and nothing else |
| `QueueProtocol.HeldRunIsStored` | internal/backups/service.go:1152-1161 | in every interleaving a run that is still held anywhere is in the store unless somebody else deleted it: the deletion after a cancellation only hits runs that nobody holds |
| `Scheduler.IsBackupMissed` | internal/backups/service.go:378-460 | a backup is missed exactly if the kind is enabled, the store answered, the newest run is over and, if it failed, a cooldown ago, and an hour, a day, a week or a month has passed since the newest success listed, if there is one; so it is for an empty list, and for failures only once the cooldown is over |
| `Scheduler.RequestRespectsAll` | internal/backups/service.go:385-460 | although it sees ten stored runs at most, the decision respects every earlier run of the kind |
| `Scheduler.RequestExactly` | internal/backups/service.go:378-460 | a backup is requested exactly when every earlier run allows it and none is being queued |
| `Scheduler.RequestedWhenDue` | internal/backups/service.go:1187-1219 | in every life of a kind a request is made as soon as no earlier run is pending or running, every success is old enough and every failure a cooldown past, and not before |
| `Scheduler.SchedulerSpacing` | internal/backups/service.go:1187-1219 | over the whole life of a kind, through retention, withdrawn requests and restarts: no run is requested within an hour, a day, a week or a month of an earlier success, within the cooldown of an earlier failure, or while one is in flight |
| `Scheduler.StoreListsNewestFirst` | internal/models/backups.go:1249-1261 | ordering by request time has one answer, the newest stored runs first, because request times are distinct |
| `BackupArchive.RemovalIsExact` | internal/backups/service.go:1877-1943 | removing runs keeps every blob a surviving item references, with its content, and removes exactly the blobs whose last reference went |
| `BackupArchive.RemovalsCompose` | internal/backups/service.go:1376-1393 | removing runs one by one or all at once is the same |
| `BackupArchive.CountedAreReferenced` | internal/models/backups.go:1152-1165 | a reference count is positive exactly for referenced blobs |
| `BackupArchive.BlobPathInjective` | internal/backups/service.go:846-867 | different digests, of whatever length, have different blob paths |
| `BackupArchive.BlobPathExample` | internal/backups/service.go:846-867 | the layout: three directories of two characters, then the digest |
| `BackupArchive.DigestsExist` | internal/backups/service.go:846-867 | digests without collisions among the torrent files that occur, as the blob results assume, exist, also with the 64 characters of SHA-256 |
| `BackupStore.Store.ListItemsForRuns` | internal/models/backups.go:965-987 | the chunked query finds exactly the items of the listed runs |
| `BackupStore.Store.CleanupRuns` | internal/models/backups.go:1720-1767 | the chunked deletion removes exactly the listed runs and their items, leaving the rest in order |
| `BackupStore.Store.CountBlobReferencesBatch` | internal/models/backups.go:1167-1229 | the merged chunk results are the true counts of exactly the paths that are referenced |
| `BackupStore.Store.CleanupTorrentBlobs` | internal/backups/service.go:1877-1943 | deletes exactly the blobs of removed items that no stored item references |
| `BackupStore.Store.CleanupRunFiles` | internal/backups/service.go:1245-1311 | removes the runs with the items and blobs only they needed |
| `BackupStore.Store.DeleteRun` | internal/backups/service.go:1343-1374 | the same for one run; fails without effect if there is no such run |
| `Retention.BackupSettings.Normalize` | internal/backups/service.go:230-276 | raises each keep count just to what is needed, at least 1 for an enabled kind, and reports exactly whether anything changed |
| `Retention.RaisedJustEnough` | internal/backups/service.go:230-276 | a positive count stays, any other becomes 1 for an enabled kind and 0 for another |
| `Retention.DeleteRunsOlderThan` | internal/models/backups.go:1636-1707 | names all but the newest `keep` runs of the instance and kind, all of them if keep is not positive |
| `Retention.ApplyRetention` | internal/backups/service.go:1221-1243 | removes, with their items and blobs, exactly the outdated runs of the four scheduled kinds of the instance |
| `Retention.OthersUntouched` | internal/backups/service.go:1221-1243 | manual runs and other instances' runs are never removed |
| `Retention.NewestSurvives` | internal/backups/service.go:258-273 | the newest run of every enabled kind survives, by normalization |
| `Retention.RemovedExactly` | internal/models/backups.go:1690-1707 | with distinct request times a run is removed exactly when at least `keep` newer ones of its kind exist |
| `BackupJob.CachedPathExactly` | internal/models/backups.go:1120-1150 | the cache lookup finds the latest item with that hash and a blob in a run of that instance, and nothing if there is none or its path is blank |
| `BackupJob.ObtainData` | internal/backups/service.go:767-822 | the data of a torrent: the cached blob if one is found and can be read; else the export, if one was found or the torrent is not hybrid, skipped or failed as the export answers; patched if that changes it |
| `BackupJob.StoreBlob` | internal/backups/service.go:846-867 | the blob of the data exists afterwards under its digest with that content; nothing else changes |
| `BackupJob.ExecuteBackup` | internal/backups/service.go:658-961 | if it succeeds, records one item per torrent with data, in order, each naming a stored blob of that very content, and adds no other blob; items hold files of their own torrents if the archive did and torrents supply their own; it fails exactly if an export fails or a write is refused, and existing blobs are unchanged |
| `BackupJob.ProducedExactly` | internal/backups/service.go:767-961 | the recorded items are, in order, those of exactly the torrents with data, each with its torrent's hash and the path of its content |
| `BackupJob.RecordedGenuine` | internal/backups/service.go:767-961 | if every blob is a file of its item's torrent, and exports and patches give a torrent's own files, then so is every blob recorded |
| `BackupJob.RecordedIsSound` | internal/backups/service.go:604-608 | recording the items keeps every reference backed and leaves no blob without reference |
| `BackupJob.HandleJob` | internal/backups/service.go:530-630 | after a complete job the archive is the old one with the new items, less what retention removes, with references backed and no blob orphaned; a job is incomplete exactly if an export failed or a write was refused; after any job references are backed and items hold files of their own torrents |
| `BackupJob.DeleteAllRuns` | internal/backups/service.go:1376-1393 | removes exactly the runs of the instance, with the items and blobs only they needed |
| `BackupJob.Replay` | internal/backups/service.go:530-630 | over any sequence of backups, retentions and deletions every referenced blob exists with its content, is a file of its item's torrent, and, if no export failed and no write was refused, no blob is unreferenced |
| `UniquePath.UsedPaths.EnsureUnique` | internal/backups/service.go:1008-1027 | returns a path not used before: the path itself if free, else its first free numbered alternative from the remembered number on; always terminates |
| `UniquePath.OccupiedShrinks` | internal/backups/service.go:1018-1026 | the occupied alternatives ahead shrink with every number tried |
| `UniquePath.ExtExactly` | internal/backups/service.go:1014-1016 | base and extension make up the path, and the extension is what follows the last dot of the last element |
| `UniquePath.UniquePaths` | internal/backups/service.go:844-844 | over any sequence of paths the results are pairwise distinct, and one differs from its path exactly if that path was given before, and then by a number between base and extension |
| `StringPool.Pool.GetStringID` | internal/dbinterface/string_pool.go:207-323 | each position gets the id of its value if pooled, and none otherwise or for the empty string, through filtering, deduplication and chunks |
| `StringPool.Pool.InternStrings` | internal/dbinterface/string_pool.go:30-112 | refused without effect if a value is empty; else each position gets the id of its value, existing ids are unchanged, exactly the missing values are added, and exactly one sequence value is drawn for each |
| `StringPool.Pool.InternStringNullable` | internal/dbinterface/string_pool.go:120-170 | the same for optional values, absent or empty ones getting no id |
| `StringPool.Pool.InternEmptyString` | internal/dbinterface/string_pool.go:178-201 | the empty string's id, drawn only if it is missing |
| `StringPool.InternedOnce` | internal/dbinterface/string_pool.go:14-29 | interning the same strings again draws nothing and changes nothing |
| `BackupItems.ItemStore.InsertItems` | internal/models/backups.go:742-892 | stores all items or, if a hash or name is empty, nothing; every run reads as before, plus the new items, as they were with empty optional strings absent; one sequence value is drawn per string not pooled before |
| `BackupItems.ItemStore.ListItems` | internal/models/backups.go:894-963 | the run's items as the view joins them, ordered by name |
| `BackupItems.RowRoundTrip` | internal/models/backups.go:832-889 | a row written with pooled ids reads back as its item |
| `BackupItems.NormalExactly` | internal/models/backups.go:832-889 | that item differs from the one given only in empty optional strings, which are absent |
| `BackupItems.ViewStable` | internal/models/backups.go:894-963 | strings pooled later do not change what stored rows read as |
| `WriterTx.Database.BeginTx` | internal/database/db.go:1189-1238 | a write begin waits for the mutex, keeps it if the engine begins and releases it if not; it meets the nested-transaction error exactly if the engine is still in one; a read-only begin leaves the mutex alone |
| `WriterTx.Database.CommitTx` | internal/database/db.go:403-414 | a successful commit releases the mutex once, a failed one does not |
| `WriterTx.Database.RollbackTx` | internal/database/db.go:420-427 | a rollback releases the mutex if that is still to be done, whatever the engine answers |
| `WriterTx.Database.BeginCall` | internal/database/db.go:1010-1048 | a single write call takes the mutex or waits |
| `WriterTx.Database.FinishCall` | internal/database/db.go:1010-1048 | the call gives the mutex back when it returns |
| `WriterTx.MutexHeldExactlyWhileOpen` | internal/database/db.go:1189-1238 | in every run the mutex is held exactly while one write transaction (from begin to first successful commit or rollback) or write call is open, and never two are |
| `WriterTx.ReleasedOncePerHolder` | internal/database/db.go:400-427 | locks and unlocks alternate with the same holder, and no transaction or call unlocks twice |
| `WriterTx.LateRollbackHarmless` | internal/database/db.go:420-427 | a deferred or repeated rollback of a finished transaction changes neither mutex nor engine |
| `WriterTx.BeginningOpens` | internal/database/db.go:1189-1238 | with the mutex free and the engine not stuck a write transaction opens and takes both; a write call opens with the mutex, and its end frees it |
| `WriterTx.CommitDecides` | internal/database/db.go:400-427 | a commit ends an open write transaction, freeing mutex and engine, exactly if it has not been ended before and the engine obeys, else it stays open under the mutex; a rollback ends it in any case |
| `WriterTx.WedgedExactly` | internal/database/db.go:1208-1224 | the connection is wedged exactly if the engine once failed to leave a transaction it was told to end; no later rollback repairs it |
| `WriterTx.NestedOnlyIfStuck` | internal/database/db.go:1208-1224 | with the mutex free, the next write begin meets a nested transaction exactly in that case |
| `WriterTx.RollbackAfterFailedCommit` | internal/database/db.go:400-402 | a failed commit that leaves the engine in the transaction, then a rollback: the mutex is free, the connection is not |
| `DirScan.DirScanStore.UpsertFile` | internal/models/dirscan.go:1338-1412 | update by file id, on a constraint violation or no match upsert by path, then delete duplicates: the path constraint always holds, success gives the specified table, and failure needs a failing statement or an unknown directory |
| `DirScan.DirScanStore.DeleteDuplicates` | internal/models/dirscan.go:1322-1335 | deletes the other rows of the file id, and nothing for an empty id or path |
| `DirScan.RenameRefusedOnConflict` | internal/models/dirscan.go:1357-1374 | the update by file id is refused exactly if the path is another row's or the id stands on several |
| `DirScan.FileStored` | internal/models/dirscan.go:1338-1412 | afterwards exactly one row holds the path, field by field with the new data, file id and time, and every other row is an old one unchanged |
| `DirScan.OneRowPerFileID` | internal/models/dirscan.go:1322-1335 | the file id then stands on that row only, whatever duplicates there were, exactly unless the path is empty and the rename was refused |
| `DirScan.FileIDsStayUnique` | internal/models/dirscan.go:1338-1412 | a table without repeated file ids stays so under that condition |
| `DirScan.EmptyPathKeepsDuplicate` | internal/models/dirscan.go:1323-1325 | for an empty path that is taken, the id ends up on two rows |
| `DirScan.RenameKeepsIdentity` | internal/models/dirscan.go:1354-1386 | a rename to a free path keeps the row and changes nothing else |
| `DirScan.OthersUntouched` | internal/models/dirscan.go:1338-1412 | rows that share neither key, and other directories, are unchanged |
| `DirScan.TrackAll` | internal/models/dirscan.go:1338-1412 | over any sequence of successful calls with real paths, no path and no file id is on two rows of a directory |
| `LogStream.Hub.Write` | internal/logstream/hub.go:52-61 | the ring buffer goes on holding the newest lines |
| `LogStream.Hub.History` | internal/logstream/hub.go:77-95 | the last n lines received, oldest first, or all that are kept if n is not positive or too large |
| `LogStream.SwitchableWriter.CaptureLine` | internal/logstream/writer.go:61-83 | the hub gets exactly the non-empty lines completed by the bytes, the buffer keeps exactly the unfinished rest |
| `LogStream.SwitchableWriter.Write` | internal/logstream/writer.go:39-58 | the bytes the target took are captured, those of a failed write or without target are not |
| `LogStream.AppendToStream` | internal/logstream/writer.go:61-83 | the lines of a stream do not depend on where it is cut: only the unfinished tail matters for what comes next |
| `LogStream.LinesRoundTrip` | internal/logstream/writer.go:61-83 | lines written out with a newline each, and a tail, are read back without the blank ones |
| `LogStream.StreamHasLines` | internal/logstream/writer.go:61-83 | every stream is written that way |
| `LogStream.CaptureAll` | internal/logstream/hub.go:77-95 | however a stream is cut into writes, history shows the last of its non-empty complete lines, capped by the buffer size |
| `Text.SplitJoined` | internal/backups/restore_execute.go:301-306 | tags sent to the instance as one comma list are the same tags when the list is split again |
| `Text.NormalizeIdempotent` | internal/backups/restore_plan.go:745-758 | a normalized key is its own normal form |
| `Text.TrimExactly` | internal/backups/restore_plan.go:745-758 | trimming takes white space off both ends and nothing else |
| `Text.SpacesAndCases` | internal/backups/restore_plan.go:745-758 | the ASCII white space, and lower-casing character by character |
| `Text.LeqIsByFirstDifference` | internal/database/sqlite_to_postgres.go:504-504 | strings are ordered by their first differing byte, a proper prefix first |
| `Text.Numerals` | internal/database/dialect.go:176-179 | numbers are written in decimal digits |

## Left out

Statements weaker than one might wish:

- Dialect.RebindQuestionToDollar: consumes the query from the front instead of moving a byte index, and appends to a string instead of a builder.
- RestoreConvergence.RestoreResult: states the torrents' category and tags; infohash and size differences are only reported by the code and are excluded from the fixed point.
- RestoreExecute.ExecuteRestore: the options given with an added torrent (paused, stopped, skip_checking), the warnings for unsupported changes and the error texts are not modelled; a failed call is taken to have changed nothing or all it would have, a failed batch call any part of that.
- BackupItems.ItemStore.InsertItems: the run's foreign key and statements failing for reasons outside the tables are not modelled.
- Scheduler.SchedulerSpacing: for one instance and kind, with requests made by the scheduler only; runs made by users are of another kind, and imported runs or deletions by users are excluded.
- BackupStore.Store.CleanupRunFiles: manifest and archive files of the runs, and failing queries and file deletions, are not modelled; items, rows and blobs are.
- BackupStore.Store.DeleteRun: manifest and archive files of the run, and failures other than a missing run, are not modelled.
- BackupJob.ExecuteBackup: the manifest, archive paths inside it, counts and sizes, and a cancellation between two torrents are not modelled; a failed write or export is.
- BackupJob.HandleJob: updates of the run's status, and the branches that end the job before execution (no reader, the run cannot be marked running), are not modelled; they change no item and no blob.
- Retention.ApplyRetention: manifest and archive files of removed runs are not modelled, and the store and the file system do not fail during a deletion.
- WriterTx.MutexHeldExactlyWhileOpen: the PostgreSQL mode, which does not serialize writes, is not modelled.

Not modelled:

- HTTP server, command line, frontend, notifications, licences, metrics and logging: plumbing.
- Lower-casing and case-insensitive order beyond ASCII.
- The loaders of snapshot and live state and the parsing of restore modes: their normalization is a precondition where a property needs it.
- The Transmission adapter behind the writers, which derives categories and tags from torrents and ignores category paths: the writers are taken at their word.
- Go's context cancellation in the middle of a file deletion.
- Nested block comments, escape strings and other rules of PostgreSQL's lexer that the rewriting does not attempt.
- Reading table metadata from the databases, and copying rows.
- SQL itself: statements are functions on maps and sequences; row order where the source does not ask for one is arbitrary.
- Import of manifests and background downloads, whose runs may reference blobs that are not there yet.
- Blobs found in their old location below `backups/`: with every reference backed the first lookup succeeds.
- Calendar arithmetic: a monthly backup is due at a parameter of the last success, assumed later than it.
- SHA-256, bencode, JSON and encryption: the digest is any function without collisions among the torrent files that occur.
- The first check for missed backups at startup, which queues the first missed kind by the same decision.
- Concurrent deletion of runs while a backup executes, and reference counts that cannot be read.
- Subscribers of the log hub and swapping the log target between writes, which does not affect capture.
- Prepared-statement caches and temporary tables of transactions.
