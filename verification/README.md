# AGHSync verification model

AGHSync copies the configuration of one master AdGuard Home server to many slaves. This project models the parts of
it that carry the logic and proves properties of the model with Dafny 4.11. `dafny verify dfyconfig.toml` checks
everything.

| file | what it models |
|---|---|
| `Diff.dfy` | the line diff of a history result: LCS table, backtrack, badge numbers |
| `AdGuard.dfy` | the client of one server: appliers, rewrite reconciliation, snapshots |
| `Engine.dfy` | one run: choosing master and slaves, master snapshots, one child's worker, the fan-out's steps |
| `Fanout.dfy` | what every schedule of the fan-out keeps, and its equality with a sequential run |
| `Worker.dfy` | the workers on real servers, from the master's snapshots to the verdict, and why such a run is a run of the fan-out |
| `Dispatcher.dfy` | the dispatcher loop, its one-slot queue, the engine's phases and the history row of a run |
| `Watchdog.dfy` | the debounced file watch |
| `Schema.dfy`, `Repository.dfy` | the tables with their constraints, and the instance operations on them |
| `Backup.dfy` | export and restore |
| `History.dfy` | the run history and the last-sync query |
| `Migrate.dfy` | the crash-resumable migration runner |
| `Text.dfy`, `Common.dfy` | text order, ORDER BY, options and sets |

How the outside world appears:

- A remote server is a state and a log of requests. A fixed but arbitrary function gives the fate of the k-th request:
  delivered, rejected, or lost (carried out, but the client sees an error). Write endpoints store what they are sent;
  adding a rewrite appends it, deleting one removes every equal entry. A list that cannot be parsed counts as a failed
  read.
- JSON is a datatype; text that is not JSON is its constructor `JInvalid`. A missing field decodes as the zero
  value, as in Go.
- The database is a value. A transaction works on a copy and commits it at the end. On a database that is not `reliable`
  any statement may fail. Statements that break a key, a unique column or a reference fail; deleting an instance cascades.
- In the engine's machine, how a server answers a read, an apply, a login or a history write is an arbitrary function of
  the child, the type and that child's current component; `ApplyLaw` and `KeepLaw` are what convergence asks of it.
  `Worker.dfy` runs the workers on `AdGuard.Server` objects and proves that the world of their answers meets both laws and
  that every schedule in it ends as these servers did. Distinct children are distinct servers.
- The goroutines of the fan-out and the dispatcher's loop are state machines over atomic steps; a property of all
  schedules is a lemma about every sequence of enabled steps. The engine's step functions read and write the shared
  channel, wait group and semaphore; fields in `Sys` called `accepted`, `completed` and `stale` only log.
- Times are integers in milliseconds; a timer goes off exactly when due. When an input arrives at that very instant, the
  input says which came first, so both orders are covered.
- Fresh identifiers (UUIDs) are parameters.

Where the code and what is written about it differ, the model follows the code, and a lemma gives the exact condition:

- Config rows are meant to belong to the master (`internal/store/migrations/002_master_sync_config.sql:2`). Creating a
  second master leaves the first one's rows behind: `Repository.RowsStayWithMasterIff`.
- "Only one master" survives every repository operation, but a restored document may list several:
  `Backup.OneMasterIffDocumentHasOne`. With several masters a promotion fails exactly when two of them hold a row of the
  same type, which `Repository.InstanceRepository.Promote` reports as a constraint error.
- A backup is described as restoring a previous state fully (the repository's `README.md:136`). An empty theme or secret is skipped, and
  keys outside the backup, such as the one for a sync on startup, stay as they are: `Backup.SettingsRoundTrip`.
- `last` and the history row of a run agree exactly when that run's own final write did not fail; whatever happened to
  other runs does not matter: `Dispatching.LastAgreesWithHistory`, with a failing run in
  `Dispatching.FailedFinishLeavesRowRunning`.
- A DNS document is changed on the way when its private resolver flag has no upstreams, and rewrites are not carried over
  when the master stored no rewrite settings: `AdGuard.SnapshotCarriesComponent`.
- A failed start of the watchdog leaves no watch, not even the previous one: `Watching.Watchdog.StartWatch`.

## Model

| member | source | states |
|---|---|---|
| `Diff.ComputeDiff` | web/src/pages/HistoryRun.tsx:22-54 | the result is a script from the old lines to the new ones, whose lines joined are the two texts and contain no line break; no script adds and removes fewer lines; within a changed hunk removals come first |
| `Diff.Backtrack` | web/src/pages/HistoryRun.tsx:38-53 | the loop, on a correct table, builds the specified script |
| `Diff.FillTable` | web/src/pages/HistoryRun.tsx:28-36 | after the nested loops every cell holds the LCS length of its two prefixes |
| `Diff.JoinSplit` | web/src/pages/HistoryRun.tsx:23-24 | splitting into lines loses nothing |
| `Diff.SplitExactly` | web/src/pages/HistoryRun.tsx:23-24 | the lines are the only pieces without a line break that line breaks join to the text |
| `Diff.LcsStep` | web/src/pages/HistoryRun.tsx:30-36 | neighbouring table cells never decrease and differ by at most one |
| `Diff.LcsIsUpperBound` | web/src/pages/HistoryRun.tsx:30-36 | no common subsequence of two prefixes is longer than their cell |
| `Diff.ScriptTransforms` | web/src/pages/HistoryRun.tsx:39-53 | equal and removed lines in order are the old lines, equal and added lines the new ones |
| `Diff.ScriptKeeps` | web/src/pages/HistoryRun.tsx:39-53 | the backtrack emits exactly as many equal lines as the last cell says |
| `Diff.ScriptIsMinimal` | web/src/pages/HistoryRun.tsx:39-53 | additions plus removals are m+n-2·LCS and minimal over all scripts |
| `Diff.NoAdditionBeforeRemoval` | web/src/pages/HistoryRun.tsx:45-50 | by the tie-break no added line is directly followed by a removed one |
| `Diff.ScriptRemovalsFirst` | web/src/pages/HistoryRun.tsx:41-52 | between an added line and a later removed one there is an equal line |
| `Diff.HasChangesIffDifferent` | web/src/pages/HistoryRun.tsx:68-73 | the badge reports changes exactly when the two texts differ |
| `Diff.SwapExchangesStats` | web/src/pages/HistoryRun.tsx:68-73 | exchanging the texts exchanges the two numbers |
| `AdGuard.Server.Snapshot` | internal/adguard/client.go:36-59 | reads the type's document, in two requests for rewrites, and changes nothing; exactly when it fails |
| `AdGuard.Server.ApplyDns` | internal/adguard/client.go:179-200 | success leaves the document field by field, with only the private resolver flag turned off when it is on without upstreams; exactly for an object or null whose one request is delivered; a document that agrees stays, whatever fails |
| `AdGuard.Server.ApplyFiltering` | internal/adguard/client.go:202-224 | success leaves the snapshot's flag, interval and rules, sent in two requests in this order, exactly when it parses and both are delivered; a component that agrees stays, whatever fails |
| `AdGuard.Server.ApplyToggle` | internal/adguard/client.go:226-237 | one request, by which success leaves the switch as the snapshot says; a switch that agrees stays, whatever fails |
| `AdGuard.FilteringDecodes` | internal/adguard/client.go:203-210 | which flag, interval and rules a filtering document stands for, field by field |
| `AdGuard.ToggleDecodes` | internal/adguard/client.go:227-232 | which switch a document stands for; a missing field is off |
| `AdGuard.RewritesDecode` | internal/adguard/client.go:253-273 | a rewrite document needs a list; its settings are passed on as they are |
| `AdGuard.EntryDecodes` | internal/adguard/client.go:265-268 | an entry is its domain and its answer |
| `AdGuard.ListDecodes` | internal/adguard/client.go:270-281 | a list decodes element by element, null to the empty list |
| `AdGuard.Server.AddMissing` | internal/adguard/client.go:291-298 | for any map order, one distinct addition per entry the child lacks, up to the first failure |
| `AdGuard.Server.DeleteExtra` | internal/adguard/client.go:299-306 | for any map order, one distinct deletion per entry the master lacks, up to the first failure |
| `AdGuard.Server.Reconcile` | internal/adguard/client.go:274-307 | after reading the child's list, distinct calls of the two set differences, deletions only once every addition was carried out, none after a failed one; what remains is exactly the calls not carried out |
| `AdGuard.Server.PushRewrites` | internal/adguard/client.go:261-308 | the settings are sent before a list that does not parse is noticed; what is left at every failure point |
| `AdGuard.Server.ApplyRewrite` | internal/adguard/client.go:252-308 | the requests made and the entry set left, at success and at every failure point; a full run makes one call per entry of the two set differences and leaves exactly the master's entries and settings; a converged child gets no call |
| `AdGuard.Server.ApplyDocument` | internal/adguard/client.go:66-81 | success leaves the document as it is given; one that agrees stays, whatever fails |
| `AdGuard.Server.Apply` | internal/adguard/client.go:62-85 | only the type's fields change; success, exactly when the document can be applied and no request failed, leaves the normalised document; a component that agrees already stays, whatever fails; no request follows a failed one |
| `AdGuard.TypesAreSeparate` | internal/adguard/client.go:36-85 | what one type's apply changes is seen by no other type's snapshot |
| `AdGuard.ComponentsAreTheServer` | internal/adguard/client.go:36-85 | the components of all types together are the whole server, rewrites counted as a set |
| `AdGuard.CallDoesItsWork` | internal/adguard/client.go:291-306 | a call carried out removes exactly itself from the calls separating child and master |
| `AdGuard.NoWorkLeft` | internal/adguard/client.go:291-306 | no call is needed exactly when the entry sets are equal, so a second run makes none |
| `AdGuard.WorkSize` | internal/adguard/client.go:291-306 | the calls that separate two entry sets are as many as their two differences have entries |
| `AdGuard.Interrupted` | internal/adguard/client.go:291-306 | at any failure point the child lies between intersection and union and exactly the calls not carried out remain; once anything is deleted it has every entry of the master |
| `AdGuard.CleaningChangesOnlyUnclean` | internal/adguard/client.go:180-194 | cleaning changes a DNS document exactly when the flag is set without upstreams, and its result is clean |
| `AdGuard.SnapshotCarriesComponent` | internal/adguard/client.go:36-85 | snapshot then apply carries a component over exactly when its type is known, a DNS document is one cleaning leaves alone, and rewrites have stored settings |
| `AdGuard.SyncedChildIsFixedPoint` | internal/adguard/client.go:36-85 | a synced child's own snapshot, applied again, is what it already has |
| `Engine.HasEnabledSlaves` | internal/sync/engine.go:51-62 | true exactly when some instance is not flagged as master and is enabled |
| `Engine.Partition` | internal/sync/engine.go:110-121 | the last flagged instance is the master, the children are exactly the enabled others |
| `Engine.PlanRun` | internal/sync/engine.go:104-153 | the snapshots are exactly the known types enabled on the master that could be read; there is a plan exactly when a master, its password and its config rows can be read, and otherwise which error |
| `Engine.RunChild` | internal/sync/engine.go:212-242 | for any map order the worker leaves the servers, rows and verdict of the sequential reference in that order; one row per type that can be recorded, a success exactly when the apply had no error, with its error or its documents before and after |
| `Engine.Drain` | internal/sync/engine.go:178-187 | success exactly when no result reports an error |
| `Fanout.StepKeepsInv` | internal/sync/engine.go:159-187 | every step keeps the counts of permits, results and workers and the exact servers and rows written so far |
| `Fanout.NothingBlocksButPermits` | internal/sync/engine.go:160-176 | in every reachable state at most five workers hold a permit, a worker gets one exactly while fewer do, and sending, releasing and leaving never block |
| `Fanout.NeverStuck` | internal/sync/engine.go:164-176 | every reachable state that is not final has an enabled step |
| `Fanout.SchedulesAreBounded` | internal/sync/engine.go:164-176 | a measure decreases at every step, so every schedule is bounded |
| `Fanout.ClosedOutcome` | internal/sync/engine.go:175-187 | at close the channel holds one result per child, the semaphore is empty, every cell is done once, and the run succeeds exactly when no child failed |
| `Fanout.HistoryTells` | internal/sync/engine.go:222-241 | in every reachable state the history has one new row per recorded cell, at the end for every type of every child logged in to, and each row says what the apply and the read gave |
| `Fanout.SequentialOutcome` | internal/sync/engine.go:212-242 | syncing the first k children one after another, in any type orders, has that outcome too |
| `Fanout.AnyScheduleIsSequential` | internal/sync/engine.go:159-187 | every interleaving ends with the servers, history rows and verdict of the sequential run |
| `Fanout.WholeRunConverges` | internal/sync/engine.go:141-187 | after a success every child has the normalised snapshots; no other component ever changes; the law on the appliers it asks for is met by real servers (`Worker.RealRunOutcome`) |
| `Fanout.PlannedRunConverges` | internal/sync/engine.go:104-188 | the same from the instance list: enabled slaves agree; master, disabled slaves and types without snapshot are unchanged; the law is met by real servers (`Worker.RealRunOutcome`) |
| `Fanout.ConvergedStays` | internal/sync/engine.go:159-187 | in every reachable state, finished or not, components that agreed at the start and those the run is not about are as they were |
| `Fanout.RepeatRunIsFixedPoint` | internal/sync/engine.go:141-187 | after a successful run, a run with the same snapshots changes no server, at any point of it and whatever fails in it |
| `Worker.SyncOne` | internal/sync/engine.go:224-240 | one read and one apply, also after a failed read: the read decides on the diff, the apply's own requests on the error; the answer is what happened to the component, and nothing else changed |
| `Worker.SyncServer` | internal/sync/engine.go:212-242 | for any map order the answers tell what happened on the child's server; one row per type that can be recorded, a success exactly when its answer has no error, with its error or its documents before and after; the verdict is an error exactly when the login or some type failed |
| `Worker.SyncNext` | internal/sync/engine.go:166-173 | one more child's result added; with a login and documents that can be pushed only an undelivered request fails it |
| `Worker.SyncServers` | internal/sync/engine.go:164-187 | rows, verdict and answers of all children, each on its own server |
| `Worker.WorldIsLawful` | internal/adguard/client.go:62-85 | a world of answers of real servers satisfies both laws on the appliers |
| `Worker.RealRunOutcome` | internal/sync/engine.go:159-187 | what real servers did is the closed outcome of the fan-out in the lawful world of their answers |
| `Worker.RealRunIsAnySchedule` | internal/sync/engine.go:159-187 | every schedule in that world, and the sequential run, ends with these servers' components, rows and verdict |
| `Worker.RealRunConverges` | internal/sync/engine.go:159-187 | success leaves every child with the normalised snapshots; whatever failed, components that agreed or that the run is not about stay |
| `Worker.RealRepeatRun` | internal/sync/engine.go:159-187 | a second run on the same servers changes no component, whatever fails in it |
| `Worker.TakeSnapshots` | internal/sync/engine.go:140-153 | reads the enabled types and leaves the master alone; all readable ones when every request is delivered |
| `Worker.SyncFromMaster` | internal/sync/engine.go:140-187 | on success a child has the master's own component exactly for the types that snapshot and apply carry over; nothing else of any server changes; the rows tell what was answered |
| `Dispatching.StepKeepsInv` | internal/sync/dispatcher.go:58-121 | every step keeps the order of requests, the current run, the rows and the last verdict consistent |
| `Dispatching.FifoConservation` | internal/sync/dispatcher.go:58-121 | accepted requests in order are the completed ones, at most one in the loop, at most one in the slot |
| `Dispatching.AtMostOneAbandoned` | internal/sync/dispatcher.go:46-62 | after the loop has exited no run is current and at most one accepted request is never executed |
| `Dispatching.ExitMeansCancelled` | internal/sync/dispatcher.go:58-62 | the loop exits only after a cancellation |
| `Dispatching.RunningExactly` | internal/sync/engine.go:83-101 | in every reachable state a row is running exactly when its final write failed, it was running at the start, or it is the open run's, which is then the published one |
| `Dispatching.StaleExactly` | internal/sync/engine.go:87-96 | a row is left behind exactly by its own failed final write, or was there at the start |
| `Dispatching.CompletedRunsAreFinished` | internal/sync/engine.go:83-101 | a completed run that got a row, on every exit path, cancelled or not, has a final one exactly when its own final write did not fail |
| `Dispatching.LastAgreesWithHistory` | internal/sync/dispatcher.go:81-96 | the last verdict is its row's status exactly when that run's own final write did not fail; otherwise, and when there is no row, it is an error |
| `Dispatching.CompletedRunsTell` | internal/sync/engine.go:65-101 | the steps of every completed run, in order, and the row and the error they lead to, on each of its exit paths |
| `Dispatching.RowSaysOutcome` | internal/sync/engine.go:184-187 | a completed run's row is success, partial failure or error exactly by the outcome of its sync, and running exactly when the final write failed |
| `Dispatching.LastIsTheLatest` | internal/sync/dispatcher.go:64-97 | the last verdict is that of the latest completed run that found a slave: how it ended, who triggered it, from when to when |
| `Dispatching.OldRowsStay` | internal/sync/engine.go:83-96 | rows from before the start never change |
| `Dispatching.FailedFinishLeavesRowRunning` | internal/sync/engine.go:94-96 | a run showing that a failed final write leaves a running row and an error verdict |
| `Dispatching.LoopProgress` | internal/sync/dispatcher.go:58-100 | the loop waits only when idle with an empty slot and not cancelled |
| `Dispatching.LoopDecreases` | internal/sync/dispatcher.go:58-100 | without new submissions at most fourteen loop steps remain |
| `Dispatching.Dispatcher.Submit` | internal/sync/dispatcher.go:105-121 | each answer exactly when: the check failed, there is no slave, or the slot is full; an accepted request is queued; it is the machine's step |
| `Dispatching.Dispatcher.Receive` | internal/sync/dispatcher.go:63 | takes the queued request: the machine's step |
| `Dispatching.Dispatcher.Begin` | internal/sync/dispatcher.go:64-72 | publishes the current run: the machine's step |
| `Dispatching.Dispatcher.End` | internal/sync/dispatcher.go:76-97 | publishes the verdict unless there were no slaves, and clears the current run: the machine's step |
| `Dispatching.Dispatcher.Status` | internal/sync/dispatcher.go:128-132 | the machine's current and last run |
| `Watching.Run` | internal/sync/watchdog.go:109-153 | submissions come exactly two seconds after the changes that nothing received disarms in time, one each, in order, and never otherwise |
| `Watching.LoneEvent` | internal/sync/watchdog.go:129-145 | a single event submits exactly when it writes, creates or renames the watched file, 2000 milliseconds later |
| `Watching.EndAfterChange` | internal/sync/watchdog.go:117-126 | a stop in time cancels the pending submission, a closed channel does not |
| `Watching.SubmitsAreSpaced` | internal/sync/watchdog.go:133-145 | any two submissions are at least 2000 milliseconds apart |
| `Watching.BurstSubmitsOnce` | internal/sync/watchdog.go:133-145 | a burst followed by quiet is answered by exactly one submission, after its last change |
| `Watching.AnswersAreUnique` | internal/sync/watchdog.go:109-153 | the inputs determine the submissions |
| `Watching.Watchdog.StopWatch` | internal/sync/watchdog.go:75-93 | afterwards no loop runs and no file watcher is open |
| `Watching.Watchdog.StartWatch` | internal/sync/watchdog.go:39-72 | at most one loop and one watcher; which starts succeed; a failed start leaves nothing running |
| `Common.TypeNamesAreTexts` | internal/store/migrations/001_initial.sql:13-18 | every stored text is the name of exactly one config type, so a key on the text is a key on the type |
| `Common.AllTypesInOrder` | internal/instance/model.go:24-36 | the types a sync covers are exactly the known ones, in the order of their names |
| `Schema.Database.InsertConfigRows` | internal/instance/repository.go:266-273 | all rows are written, or a repeated or existing key makes the insertion fail |
| `Repository.AllSequencesKeepInv` | internal/instance/repository.go:41-340 | every sequence of operations from an empty database keeps one master at most, distinct addresses, no orphans and a covered master |
| `Repository.OperationKeepsConstraints` | internal/store/migrations/001_initial.sql:1-37 | every operation keeps the key, unique and reference constraints |
| `Repository.OperationErrors` | internal/instance/repository.go:41-340 | exactly when each operation fails, and with which error |
| `Repository.CreateWrites` | internal/instance/repository.go:41-95 | the row a creation inserts, what it changes in old masters, the default config of a new master, and that nothing else changes |
| `Repository.UpdateWrites` | internal/instance/repository.go:132-164 | the columns an update writes, and that nothing else changes |
| `Repository.DeleteRemoves` | internal/instance/repository.go:167-177 | a deletion takes the instance, its config rows and its results, and nothing else |
| `Repository.SetSyncEnabledWrites` | internal/instance/repository.go:304-317 | one flag and the time of one row, and nothing else |
| `Repository.SetSyncConfigWrites` | internal/instance/repository.go:320-340 | each listed type gets the value listed last, and nothing else changes |
| `Repository.PromoteWritesFlags` | internal/instance/repository.go:246-264 | a promotion writes the flag of each instance and the time of the target and the old masters, and no other column |
| `Repository.PromoteHandsOver` | internal/instance/repository.go:213-273 | the target gets exactly the masters' rows or, when they have none, a row for every known type, enabled but for DHCP |
| `Repository.PromoteKeepsOtherRows` | internal/instance/repository.go:246-273 | the masters' rows go and those of the other instances stay |
| `Repository.PromoteMovesConfig` | internal/instance/repository.go:195-276 | a promotion moves the master's config to the target, clears the old master's and touches no other |
| `Repository.ConfigFollowsRole` | internal/instance/repository.go:195-276 | along any sequence of promotions, at any times and of existing or missing instances, the last existing target holds the master's config; instances never targeted keep their rows |
| `Repository.RowsStayWithMasterIff` | internal/instance/repository.go:57-84 | exactly which operations keep config rows with the master alone |
| `Repository.HandedOver` | internal/instance/repository.go:213-244 | the collected rows repeat a type exactly when two masters clash, otherwise they are the inherited config |
| `Repository.InstanceRepository.Create` | internal/instance/repository.go:41-95 | the transaction does the specified creation or leaves everything as before, the old master included |
| `Repository.InstanceRepository.Update` | internal/instance/repository.go:132-164 | the specified update or error; only a fault while reading back reports an error after the change |
| `Repository.InstanceRepository.Delete` | internal/instance/repository.go:167-177 | deletes the instance with its config rows and results, or reports that it is missing |
| `Repository.InstanceRepository.SetSyncEnabled` | internal/instance/repository.go:304-317 | the specified update or error |
| `Repository.InstanceRepository.SetSyncConfig` | internal/instance/repository.go:320-340 | upserts all entries or none |
| `Repository.InstanceRepository.QueryMasterConfig` | internal/instance/repository.go:213-237 | every config row of a master exactly once, in any order |
| `Repository.InstanceRepository.CollectMasterConfig` | internal/instance/repository.go:213-244 | the rows collected repeat a type exactly when masters clash, otherwise they list the inherited config, or the defaults |
| `Repository.InstanceRepository.Promote` | internal/instance/repository.go:195-276 | the transaction does the specified promotion or leaves everything as before |
| `Backup.RoundTrip` | internal/backup/backup.go:74-284 | restoring an export succeeds and carries over all instances, config rows and channels; runs survive, results are gone |
| `Backup.SecondExport` | internal/backup/backup.go:74-284 | exporting after the restore lists the same rows, and the same settings exactly when no skipped one was set at the destination |
| `Backup.SettingsRoundTrip` | internal/backup/backup.go:248-281 | the settings come back exactly when the skipped-when-empty ones allow it; other keys never change |
| `Backup.ExportTells` | internal/backup/backup.go:81-103 | what a backup says of each setting, also of those never stored |
| `Backup.RestoreTells` | internal/backup/backup.go:248-281 | what a restore leaves under each key |
| `Backup.WrittenSoFar` | internal/backup/backup.go:248-281 | a restore cut short has restored the settings up to there, in order, and left the rest |
| `Backup.RestoredTells` | internal/backup/backup.go:211-242 | the restored tables hold every row of the document as it is listed |
| `Backup.NothingElseRestored` | internal/backup/backup.go:200-242 | and no other |
| `Backup.OneMasterIffDocumentHasOne` | internal/backup/backup.go:211-220 | a restore leaves one master at most exactly when the document lists one at most |
| `Backup.RestoredIsConsistent` | internal/backup/backup.go:200-242 | the restored tables satisfy every constraint |
| `Backup.Archive.Export` | internal/backup/backup.go:74-184 | the document lists every row once, in creation order, with the settings |
| `Backup.Archive.Restore` | internal/backup/backup.go:189-284 | on a reliable database success exactly for a valid document, and which error otherwise; before the commit an error changes nothing, after it the settings written before the failing one stay |
| `Backup.Archive.InsertInstances` | internal/backup/backup.go:212-229 | succeeds exactly for distinct identifiers, addresses and types per instance |
| `Backup.Archive.InsertChannels` | internal/backup/backup.go:232-242 | succeeds exactly for distinct identifiers and names |
| `Backup.Archive.RestoreSettings` | internal/backup/backup.go:249-281 | the writes amount to the restored settings; a failure leaves those written before it |
| `History.TextOrderIsTimeOrder` | internal/history/store.go:60 | the text order of the stored timestamps is the order of time |
| `History.TimeTextShape` | internal/history/store.go:60 | a timestamp is its numbers in decimal with their separators, twenty characters |
| `History.LastSyncSpec` | internal/history/store.go:159-174 | one row exactly per instance with a result in a finished run, with the latest finish time, failed exactly when a result at that time failed |
| `History.LastSyncIsLatestInTime` | internal/history/store.go:166-172 | the reported time is the latest in time |
| `History.DeleteDropsOneRow` | internal/store/migrations/001_initial.sql:28-37 | deleting an instance drops its row and changes no other |
| `History.HistoryStore.StartRun` | internal/history/store.go:46-56 | inserts a running row under a new key |
| `History.HistoryStore.FinishRun` | internal/history/store.go:59-71 | sets status and finish time of an existing run |
| `History.HistoryStore.AddResult` | internal/history/store.go:75-84 | adds a result whose run and instance exist |
| `History.HistoryStore.LastSyncByInstance` | internal/history/store.go:158-190 | returns the rows of the query, each once |
| `Migrations.EachAppliedOnce` | internal/store/store.go:77-109 | the data is that of the effective files applied once each in order |
| `Migrations.DistinctVersionsAllEffective` | internal/store/store.go:78-89 | with distinct versions every file takes effect |
| `Migrations.VersionIsTheNumber` | internal/store/store.go:78-82 | a name that starts with a decimal number and an underscore has that number as its version |
| `Migrations.NoVersion` | internal/store/store.go:79-82 | a name that starts with anything else has none |
| `Migrations.FilesAreNumbered` | internal/store/store.go:15-16 | the program's own six files have the versions one to six, so each takes effect |
| `Migrations.RecordedPrefix` | internal/store/store.go:83-104 | the recorded versions are exactly those of the files passed |
| `Migrations.Store.MigrateFile` | internal/store/store.go:77-108 | a file is skipped when recorded, otherwise applied and recorded together or not at all |
| `Migrations.Store.Migrate` | internal/store/store.go:62-111 | under any crashes and restarts the database stays on the path of an uninterrupted run, completes at its end and is then left alone |
| `Migrations.FreshIsReached` | internal/store/store.go:62-111 | a fresh database is at the start of that path, so it holds after any number of crashes and restarts |
| `Text.OrderBy` | internal/backup/backup.go:106-108 | every row once, sorted by a text column |
| `Text.TextOrder` | internal/store/store.go:75 | texts compare at their first difference, a prefix comes first |
| `Text.DigitsRead` | internal/store/store.go:78-82 | a number in decimal reads back as that number |

## Left out

- HTTP, TLS, status codes and JSON text: replaced by the request log and the JSON datatype. Case-insensitive matching of
  JSON field names is not modelled.
- JSON numbers are reals. The client decodes a DNS document's numbers to 64-bit floats and encodes them again, so that
  cleaning changes a document exactly when its flag has no upstreams holds for numbers such a float keeps.
- Encryption, password hashing and token handling: ciphertext is opaque text.
- Notification senders and message texts, the HTTP handlers and middleware, settings accessors outside a backup, the cron
  scheduler (a source of submissions), the user interface other than the diff.
- `parseDiff`: parsing and printing the two documents; the diff starts from the two texts.
- A result row keeps whether it failed, not its diff or message; the diff and the message are in the engine's rows.
- `GetRun`, `GetResults`, `ListRuns`, `Get`, `List`, `GetSyncConfig`: plain queries.
- SQL parsing, journal modes and the SQLite engine; a failed commit is taken to roll back.
- Engine.Run is modelled as the phases of the dispatcher's state machine, because submissions and cancellation happen
  between its statements; the fan-out is a state machine for the same reason.
- Goroutine scheduling below the granularity of one read, one apply or one history write of a worker.
- Timer callbacks that start late, and callers of the watchdog's Start and Stop that run at the same time.
- MigrateFile: a script is a function of the database that may fail; its SQL is not modelled.
- Timestamps after the year 9999, which are no longer of fixed width.
