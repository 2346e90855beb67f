# Verification of the parcel back office

Dafny models of the batch jobs and policies that move tracking files, parcels and crawler plans around,
with proofs of what they promise. Check everything with `dafny verify dfyconfig.toml`.

A job of this system is a sequence of awaited calls on SFTP servers, S3, database tables and Kafka. Nothing
wraps those calls in a transaction, other jobs run between them, and the process may die at any of them. The
models take this seriously in two ways:

- Where other runs interfere (tracking files, parcel push, the dispatcher, 17TRACK, tracking push) the state
  includes every suspended run, a step is what happens at or between awaited calls, and theorems are about every
  behaviour: every interleaving, every failure, every crash point. Beside the machine stands the code's own form:
  loops of calls proved to make its steps, or an object whose methods are the stretches between two awaits.
- Plan merge and collecting are modelled as having their tables to themselves, which nothing in the code
  enforces; the loops are methods on an object that holds the tables. Each awaited write that matters is an
  intermediate state, and failures stop the loop where the source would stop.

| file | what it models |
|---|---|
| `TrackingFilePipeline.dfy` | SFTP source folder, S3, file records, extracted folder, parsing, clearing: all interleavings and crashes |
| `TrackingFileJobs.dfy` | the same jobs and the S3 service as loops of calls, proved to be runs of that machine with exact end states |
| `ParcelPush.dfy` | the parcel outbox: one coroutine per platform, any failure of any call |
| `PlanMerge.dfy` | regrouping crawler plans without orphaning a target |
| `JobDispatcher.dfy` | mutual exclusion and callbacks under single-threaded interleaving, and the shared FTP client |
| `Track17.dfy` | registration with at most ten tries, by overlapping runs that save copies of rows |
| `TrackingPush.dfy` | the tracking outbox: grouping, sorting, all-or-nothing status, by overlapping runs |
| `CrawlerCollect.dfy` | paging by offset against paging by asking again |
| `ParcelAging.dfy` | elapsed time without Sundays against an integral |
| `DailyQuantity.dfy`, `AverageAging.dfy` | in-place joins of statistics, and the order of joining and normalising |
| `CheckKeys.dfy` | check keys of Colissimo and DISPEO numbers |
| `Reconciliation.dfy` | fees, counters and summary of a monthly bill |
| `ConfigMerge.dfy`, `CityName.dfy` | deep configuration merge, city names |
| `Chunks.dfy`, `Sequences.dfy`, `Columns.dfy`, `Options.dfy` | chunking, list functions, nullable columns, optional values |

Properties that one might expect and that the code does not have, each with its exact condition and a failing
input:

- A plan merge can orphan an active target: one whose `official` flag differs from that of the job (it is null
  on targets made by hand), when no other READY plan serves its path (`PlanMerge.CoveredExactly`,
  `PlanMerge.HandMadeOrphaned`). Until the last write nobody is orphaned.
- 17TRACK registration can undo a SUCCESS, count several registrations as one and give tries back, because runs
  overlap and save whole rows from copies. Counts are exact, SUCCESS is final and tries are used up as long as no
  save of the row comes from a copy that another save overtook (`Track17.CountExactly`,
  `Track17.ReopenedExactly`, `Track17.RowLosesTry`, `Track17.SaveChangesWork`, `Track17.SuccessUndone`). A row is
  registered more than ten times only after such a save or when runs die or wait between an answered call and
  its save (`Track17.TriesBounded`, `Track17.TriesUnbounded`, `Track17.CallsUnbounded`).
- The average agings of a run may keep two rows of one key: the result has one row per key exactly when the
  fetched rows have distinct keys and no two different keys normalise to the same one
  (`AverageAging.UniqueExactly`, `AverageAging.TwoRowsOneKey`).
- Joining average agings before null columns become UNKNOWN may differ from doing it after
  (`AverageAging.OrdersAgreeExactly`, `AverageAging.OrdersDiffer`).
- Daily totals are conserved exactly when every row that a later one of its list and normalised key follows has
  no quantity (`DailyQuantity.TotalsConserved`, `DailyQuantity.TransferredLost`).
- Asking again for uncollected rows skips rows exactly when the plans of a page other than the last were not
  saved (`CrawlerCollect.RequeryVisitsChunksExactly`, `CrawlerCollect.LastParcelMissed`). Paging by offset gives a
  second target exactly to the collected parcels it visits with their plans saved
  (`CrawlerCollect.SecondTargetExactly`, `CrawlerCollect.CollectedTwice`).
- Mod-10 keys miss a swap of neighbours 5 apart (`CheckKeys.Mod10DetectsSwapExactly`, `CheckKeys.SwapUnnoticed`);
  EY keys miss errors between remainders 0 and 6 (`CheckKeys.EYDetectsSubstitutionExactly`,
  `CheckKeys.EYDetectsSwapExactly`, `CheckKeys.EYSubstitutionUnnoticed`, `CheckKeys.EYSwapUnnoticed`).
- Two agings in a row need not add up: the millisecond at the end of a Sunday counts again
  (`ParcelAging.SplitWorking`, `ParcelAging.SundayEndCountsAgain`), and each is rounded; they add up exactly when
  the remainders of that rounding, less that millisecond, themselves round to nothing (`ParcelAging.SplitAging`,
  `ParcelAging.RoundedTwice`).

## Model

| member | source | states |
|---|---|---|
| `TrackingFilePipeline.NoFileLost` | src/domain/job/sct/service/metadata-extract.service.ts:18-41 | at every moment of every interleaving of extract, parse and clear runs, crashes included, a file that ever arrived is on SFTP or in S3; once it is off SFTP all its chunks were handled; every S3 object with its name holds its contents |
| `TrackingFilePipeline.EventsMeanWork` | src/domain/job/sct/parse-file-record-job.service.ts:53-119 | a record is PARSED or ARCHIVED only after every 1000-row chunk of its file went to the handler; a record exists only for a stored file; an ignore path always resolves |
| `TrackingFilePipeline.DeletionJustified` | src/domain/job/sct/clear-cm-file-record-job.service.ts:43-70 | a name leaves SFTP only if its record was read as PARSED and, after that read, an object existed at the fileUrl of the record as read |
| `TrackingFilePipeline.ClearRunsJustified` | src/domain/job/sct/clear-cm-esd-file-record-job.service.ts:43-70 | each clear run about to check or delete had read its record as PARSED, and one about to delete has since seen the S3 object |
| `TrackingFilePipeline.ClearAdvances` | src/domain/job/sct/clear-cm-file-record-job.service.ts:43-70 | a clear run keeps its record from call to call and reaches the deletion only past a successful S3 check |
| `TrackingFilePipeline.OnlyDeletionRemoves` | src/domain/job/sct/clear-cm-file-record-job.service.ts:53-54 | no call of any job but the deletion of that very file takes a name off SFTP; a rename does not |
| `TrackingFilePipeline.InvAlways` | src/domain/job/sct/parse-file-record-job.service.ts:44-121 | the invariant over tables and suspended runs holds at every moment of every behaviour |
| `TrackingFilePipeline.NextKeeps` | src/domain/job/sct/parse-file-record-job.service.ts:44-121 | one arrival, start, awaited call or crash keeps the invariant |
| `TrackingFilePipeline.ProcStable` | src/domain/job/sct/service/metadata-extract.service.ts:18-41 | what a suspended run relies on survives every step of every other run |
| `TrackingFilePipeline.UploadKeeps` | src/domain/job/sct/service/metadata-extract.service.ts:30-32 | storing a file, new or again, keeps the invariant |
| `TrackingFilePipeline.SaveKeeps` | src/domain/job/sct/service/metadata-extract.service.ts:67-93 | resetting a record to EXTRACTED after a crash keeps the invariant, also over a PARSED or IGNORED one |
| `TrackingFilePipeline.RenameKeeps` | src/domain/job/sct/service/metadata-extract.service.ts:37-38 | moving a file to the extracted folder loses no name |
| `TrackingFilePipeline.CopyKeeps` | src/domain/external/aws/aws.service.ts:151-167 | the copy to the ignore path is there after the call even when another run already moved the original |
| `TrackingFilePipeline.DeleteOriginalKeeps` | src/domain/external/aws/aws.service.ts:200-206 | deleting the original keeps every file stored, because an ignore copy, once made, is never deleted |
| `TrackingFilePipeline.DeliverKeeps` | src/domain/job/sct/parse-file-record-job.service.ts:99-109 | handling one chunk keeps the record of which chunks are still to be handled exact |
| `TrackingFilePipeline.DeleteKeeps` | src/domain/job/sct/clear-cm-file-record-job.service.ts:53-54 | deleting from SFTP keeps the invariant: the file is stored and handled |
| `TrackingFileJobs.RunKeepsTables` | src/domain/job/sct/parse-file-record-job.service.ts:44-121 | a run of calls from good tables ends in good tables and undoes nothing that other runs rely on |
| `TrackingFileJobs.ExtractTracking` | src/domain/job/sct/service/metadata-extract.service.ts:18-41 | store, record, rename: the exact end state of every table, the exact condition for failing, what is left in each case, and that the call sequence is a run of the machine |
| `TrackingFileJobs.SaveFileRecord` | src/domain/job/sct/service/metadata-extract.service.ts:43-94 | the record with the same name and size, or a new one if there is none, gets name, size, S3 path, EXTRACTED, the carrier of the server and the account that the name starts with; no other record changes |
| `TrackingFileJobs.ParseRecord` | src/domain/job/sct/parse-file-record-job.service.ts:53-119 | a Colissimo record becomes IGNORED with its object moved exactly when no enabled Colissimo setting is for the platform of its account, or all, and for its account, or all; any other becomes PARSED with every chunk delivered; it fails exactly on a Colissimo account without platform or a missing object, and then changes nothing |
| `TrackingFileJobs.IgnoredExactly` | src/domain/job/sct/parse-file-record-job.service.ts:56-64 | the code ignores a record exactly when it is Colissimo and no setting, read column by column, enables it |
| `TrackingFileJobs.HandleAllChunks` | src/domain/job/sct/parse-file-record-job.service.ts:99-109 | exactly the chunks of the file are delivered, in order |
| `TrackingFileJobs.ParseFileRecords` | src/domain/job/sct/parse-file-record-job.service.ts:44-121 | the records before the first failing one became IGNORED or PARSED as their settings say, the failing one and the later ones are as they were, no other record changes, and the calls are a run of the machine |
| `TrackingFileJobs.DoneStable` | src/domain/job/sct/parse-file-record-job.service.ts:53-119 | a record that is done stays done while later records are handled |
| `TrackingFileJobs.ClearRecord` | src/domain/job/sct/clear-cm-file-record-job.service.ts:43-79 | a record is archived exactly when its object exists and the listed file is absent or still there to delete; then exactly that file of the extracted folder and that event change, otherwise nothing does |
| `TrackingFileJobs.ClearFileRecords` | src/domain/job/sct/clear-cm-file-record-job.service.ts:25-87 | exactly the files of the extracted folder leave whose name a record of the list with a stored object has, and exactly their records are archived, of several with one name the first |
| `TrackingFileJobs.Services.MoveObjects` | src/domain/external/aws/aws.service.ts:200-206 | the object ends at the target and only there; a missing source changes nothing; an object moved onto itself is lost |
| `TrackingFileJobs.Services.CopyObject` | src/domain/external/aws/aws.service.ts:151-167 | a missing source is swallowed and changes nothing |
| `TrackingFileJobs.Services.Exists` | src/domain/external/aws/aws.service.ts:117-120 | true exactly when the key is stored |
| `ParcelPush.NothingLost` | src/domain/job/npm/parcel-push.job.ts:32-134 | over any interleaving of coroutines and runs and any failed or half-failed call, a request ever inserted is still pending, or was both sent and logged, or was fetched by a run whose own configurations drop it: none is of its platform, or the first one that is lists neither * nor its transporter, or its status is CREATED |
| `ParcelPush.DeletedUnsent` | src/domain/job/npm/parcel-push.job.ts:51-90 | a step that deletes a pending request unsent is a call of a coroutine whose own run fetched it and drops it, so a request inserted during a run is never deleted unsent by it |
| `ParcelPush.LoggedWasSent` | src/domain/job/npm/parcel-push.job.ts:76-78 | every log row stands, by id and fields, for a request that was sent, and every number marked as synced for one too; every message has one platform, the topic of the first configuration of that platform that its own run read, 1 to 1000 of the rows its run fetched in ascending id order, and none that the run drops |
| `ParcelPush.CleanRunSendsOnce` | src/domain/job/npm/parcel-push.job.ts:34-90 | a run that meets no error, whatever other runs and their leftover coroutines do, fail to do or insert meanwhile, sends each platform exactly the expected messages, logs and marks each of their rows, sends nothing else, and leaves none of its fetched rows pending |
| `ParcelPush.FlowAlways` | src/domain/job/npm/parcel-push.job.ts:32-97 | at every moment of every behaviour what a present coroutine sent, followed by the messages of its remaining calls, is what its platform is to get; its rows are deleted or will be, and those that no rule drops are logged and marked or will be |
| `ParcelPush.NextFlows` | src/domain/job/npm/parcel-push.job.ts:32-97 | one insert, fetch, start, call, failure or end keeps that |
| `ParcelPush.GoneForGood` | src/domain/job/npm/parcel-push.job.ts:34-48 | a coroutine that failed or died never comes back, so one that is there with no call left met no error |
| `ParcelPush.ExpectedMessagesAreKeptRows` | src/domain/job/npm/parcel-push.job.ts:52-76 | the expected messages of a platform, end to end, are its fetched rows that no rule drops, once each and in ascending id order, 1 to 1000 a message, to the topic of its first configuration |
| `ParcelPush.FindsFirst` | src/domain/job/npm/parcel-push.job.ts:52 | the configuration of a platform is the first with that platform, and there is none exactly when no configuration has it |
| `ParcelPush.DropsByRule` | src/domain/job/npm/parcel-push.job.ts:55-60 | a row is dropped by the code exactly when the rules, column by column, let it go unsent |
| `ParcelPush.FetchTakes` | src/domain/job/npm/parcel-push.job.ts:34-39 | a run fetches the whole table, or 50,000 rows if there are more, and no pending row with a smaller id than a fetched one is left out |
| `ParcelPush.PlatformScriptSafe` | src/domain/job/npm/parcel-push.job.ts:51-90 | the calls of a coroutine delete only rows it sent and logged before or its own run drops, and log and mark only what it sent before |
| `ParcelPush.PlatformScriptMeans` | src/domain/job/npm/parcel-push.job.ts:51-90 | a whole coroutine sends what is expected, deletes every row it was started with, and logs and marks those that no rule drops |
| `ParcelPush.PlatformScriptDropsFirst` | src/domain/job/npm/parcel-push.job.ts:53-60 | a coroutine first deletes, in one call, exactly the rows that the rules drop, if there are any |
| `ParcelPush.SafeStable` | src/domain/job/npm/parcel-push.job.ts:51-90 | what is left of a coroutine stays safe while others send, log, delete and insert |
| `ParcelPush.InvAlways` | src/domain/job/npm/parcel-push.job.ts:32-97 | the invariant holds at every moment of every behaviour |
| `ParcelPush.NextKeeps` | src/domain/job/npm/parcel-push.job.ts:32-97 | one insert, fetch, start, call (done, failed, or failed after taking effect) or end keeps the invariant |
| `ParcelPush.RunPlatform` | src/domain/job/npm/parcel-push.job.ts:51-90 | the loop as written makes exactly the calls of its script in order, up to its first failure |
| `ParcelPush.PushChunks` | src/domain/job/npm/parcel-push.job.ts:65-84 | chunk after chunk, up to the first failure |
| `ParcelPush.PushChunk` | src/domain/job/npm/parcel-push.job.ts:65-84 | send before log before delete before sync |
| `ParcelPush.MovePushRequestToLog` | src/domain/job/npm/parcel-push.job.ts:99-127 | log before delete before sync, stopping at the first failure |
| `PlanMerge.Handle` | src/domain/job/sct/crawler-plan-merge-job.service.ts:45-135 | at every awaited write before the last none of the targets that started under a READY plan is orphaned; at the end exactly the READY plans of the transporter with the flag are DONE and other old plans are as they were; exactly the active targets with the flag on their paths have moved, to new paths of the same platform with 1 to 1000 targets; and each new path has exactly one plan, READY and for today, for each time of day at which a merged plan of that platform ran |
| `PlanMerge.MergePlatforms` | src/domain/job/sct/crawler-plan-merge-job.service.ts:58-116 | the groups are merged one by one and together cover the paths of all selected plans |
| `PlanMerge.MergePlatform` | src/domain/job/sct/crawler-plan-merge-job.service.ts:59-115 | exactly the active targets with the flag of the job on the paths of the group move |
| `PlanMerge.MergeChunks` | src/domain/job/sct/crawler-plan-merge-job.service.ts:80-115 | chunk by chunk until no found target is left, orphaning nobody in between |
| `PlanMerge.MergeChunk` | src/domain/job/sct/crawler-plan-merge-job.service.ts:80-114 | file, then plans, then targets: both intermediate states orphan nobody |
| `PlanMerge.ChunkMerged` | src/domain/job/sct/crawler-plan-merge-job.service.ts:91-114 | the states after the plans and after the targets are both without orphans, and the new path is full |
| `PlanMerge.ProgressCovers` | src/domain/job/sct/crawler-plan-merge-job.service.ts:91-114 | between the start and the closing write, a target covered at the start is covered |
| `PlanMerge.NewPlansServe` | src/domain/job/sct/crawler-plan-merge-job.service.ts:91-104 | the saved plans give the new path exactly one READY plan for each second of the day |
| `PlanMerge.SameTimeOfDay` | src/domain/job/sct/crawler-plan-merge-job.service.ts:65-68 | two schedules share their HH:mm:ss exactly when hour, minute and second agree |
| `PlanMerge.CloseMerges` | src/domain/job/sct/crawler-plan-merge-job.service.ts:118-131 | closing the old plans turns the loop state into the final one |
| `PlanMerge.JobDone` | src/domain/job/sct/crawler-plan-merge-job.service.ts:49-131 | the last write completes all of this, plan by plan and target by target |
| `PlanMerge.CoveredExactly` | src/domain/job/sct/crawler-plan-merge-job.service.ts:71-77 | after the job a target is covered exactly when it was movable or an untouched READY plan shares its path: the exact family that the last write orphans |
| `PlanMerge.NullFlagOrphans` | src/domain/job/sct/crawler-plan-merge-job.service.ts:71-77 | a concrete active target with a null flag is orphaned by every merge |
| `PlanMerge.HandMadeOrphaned` | src/domain/job/sct/crawler-plan-merge-job.service.ts:71-131 | the tables after that merge, outright: the plan is DONE and the active target has no READY plan |
| `JobDispatcher.MutualExclusion` | src/application/job/job.controller.ts:37-105 | at every moment of every interleaving of requests, settled jobs and callbacks, a job name is EXECUTING exactly when a run is inside its job, and two runs inside one job are one |
| `JobDispatcher.SessionHeld` | src/domain/job/base/ftp.job.ts:27-47 | from its connect until it leaves the job a run finds the shared client in the session it opened: no other run connects in between |
| `JobDispatcher.EveryRequestCalledBack` | src/application/job/job.controller.ts:48-104 | at every moment an answered request got one callback attempt, two only if one threw |
| `JobDispatcher.InvAlways` | src/application/job/job.controller.ts:37-105 | the invariant over states, suspended requests, sessions and callback counts holds at every moment |
| `JobDispatcher.NextKeeps` | src/application/job/job.controller.ts:37-105 | one continuation of one request keeps it |
| `JobDispatcher.EnterKeeps` | src/application/job/job.controller.ts:42-46 | entering a job that is not EXECUTING keeps: EXECUTING exactly when one run is inside |
| `JobDispatcher.LeaveKeeps` | src/application/job/job.controller.ts:86-97 | leaving with SUCCESS or FAIL keeps it |
| `JobDispatcher.StageOrigin` | src/domain/job/base/ftp.job.ts:27-32 | a run inside its job was there one step before, and never goes back before its connect |
| `JobDispatcher.JobController.Execute` | src/application/job/job.controller.ts:37-75 | a known job that is not EXECUTING becomes EXECUTING and is entered, also if it ran before; a known job that is EXECUTING gets the busy callback and an unknown one the failure callback, and both leave the states alone; the invariant is kept |
| `JobDispatcher.JobController.JobSettled` | src/application/job/job.controller.ts:84-99 | the state becomes SUCCESS when the job resolved and FAIL when it threw, and its callback is tried; the invariant is kept |
| `JobDispatcher.JobController.CallbackSettled` | src/application/job/job.controller.ts:56-74 | only the callback for a busy job is followed, when it throws, by a second one; any other ends the request; the states stay and the invariant is kept |
| `JobDispatcher.JobController.FtpConnected` | src/domain/job/base/ftp.job.ts:27-42 | the session of the shared client becomes that of the run; the invariant is kept |
| `JobDispatcher.JobController.FtpHandled` | src/domain/job/base/ftp.job.ts:27-47 | the session that is ended is the one the run connected |
| `JobDispatcher.JobController.UpdateColispriveTrackingJobStates` | src/application/job/job.controller.ts:107-114 | the reset keeps the invariant exactly when that job is not executing |
| `Track17.CountBounded` | src/domain/job/sct/track17-request-job.ts:44-116 | over every interleaving of runs, inserts, failures and crashes a count never passes ten, nor the saves, nor the code-0 calls that included the row |
| `Track17.CallsAreSmall` | src/domain/job/sct/track17-request-job.ts:83-97 | every call carries 1 to 40 different numbers, all of copies that were not finished and had tries left |
| `Track17.CountExactly` | src/domain/job/sct/track17-request-job.ts:105-115 | the count equals the saves exactly when no save of the row came from a copy that another save overtook, and the code-0 calls exactly when, besides, no run was lost or is waiting between call and save |
| `Track17.StaleExactly` | src/domain/job/sct/track17-request-job.ts:105-115 | what the history calls stale is exactly that some save came from an overtaken copy |
| `Track17.ReopenedExactly` | src/domain/job/sct/track17-request-job.ts:105-115 | a step takes SUCCESS from a row exactly when a run saves an overtaken copy of it that its answer did not accept |
| `Track17.SuccessFinal` | src/domain/job/sct/track17-request-job.ts:44-51 | SUCCESS is final for a row none of whose saves came from an overtaken copy |
| `Track17.TriesBounded` | src/domain/job/sct/track17-request-job.ts:44-116 | a row none of whose saves came from an overtaken copy is saved at most ten times, and included in at most that many code-0 calls plus those whose run was lost or waits before its save |
| `Track17.SaveUsesTries` | src/domain/job/sct/track17-request-job.ts:105-115 | a completed chunk with no overtaken copy makes the total of tries left smaller, whatever happened to other rows or chunks |
| `Track17.RowLosesTry` | src/domain/job/sct/track17-request-job.ts:105-115 | a saved row loses a try exactly when it is unfinished, has one left, and its copy is SUCCESS or counts more than the row |
| `Track17.FreshCopyUsesTry` | src/domain/job/sct/track17-request-job.ts:105-115 | a copy that no other save overtook always uses up a try |
| `Track17.SaveChangesWork` | src/domain/job/sct/track17-request-job.ts:105-115 | the exact change of the total by any completed chunk, from the rows and copies before the save: it falls exactly when that sum is negative |
| `Track17.WorkBounded` | src/domain/job/sct/track17-request-job.ts:44-116 | in every behaviour the chunks completed by all runs plus the tries left are at most ten per request collected plus the uncounted saves, which are none exactly when no row was saved from an overtaken copy |
| `Track17.WorkFalls` | src/domain/job/sct/track17-request-job.ts:105-113 | the total of tries left falls strictly when one row loses a try and none gains one |
| `Track17.NoSharingIsFresh` | src/domain/job/sct/track17-request-job.ts:44-116 | as long as no two runs hold one row between fetch and save no copy is overtaken, so all of the above holds |
| `Track17.SuccessUndone` | src/domain/job/sct/track17-request-job.ts:83-116 | a reachable step that saves FAILED with count 1 over SUCCESS with count 1, after two registrations; the total of tries left rises from 0 to 9 |
| `Track17.TriesUnbounded` | src/domain/job/sct/track17-request-job.ts:83-116 | for every m a reachable table whose row was registered m times by overlapping runs and counts 1 |
| `Track17.CallsUnbounded` | src/domain/job/sct/track17-request-job.ts:83-116 | for every m a reachable table whose row was registered m times and counts 0: runs that died between the answered call and the save, never two at once |
| `Track17.InvAlways` | src/domain/job/sct/track17-request-job.ts:44-116 | the invariant over rows, copies in memory and histories holds at every moment of every behaviour |
| `Track17.NextKeeps` | src/domain/job/sct/track17-request-job.ts:44-116 | one insert, fetch, answer, save or end keeps it |
| `Track17.ChunksOfPartition` | src/domain/job/sct/track17-request-job.ts:64-67 | each fetched request of a handled platform is in exactly one chunk, and chunks hold 1 to 40 |
| `Track17.SaveAllMeans` | src/domain/job/sct/track17-request-job.ts:115 | a save writes exactly the rows of its chunk, each from its copy |
| `Track17.Track17Requests.Fetch` | src/domain/job/sct/track17-request-job.ts:44-67 | past the queries the run holds, in chunks of 1 to 40, copies of rows that are READY or FAILED with fewer than ten tries, collected in the time span, of an enabled platform, and of all such rows if fewer than 10,000 were found; the invariant is kept |
| `Track17.Track17Requests.Answer` | src/domain/job/sct/track17-request-job.ts:98-113 | a code other than 0 ends the run; otherwise each copy of the chunk counts one more, is SUCCESS exactly when its number was accepted and FAILED otherwise, with the reason of its rejection or undefined; a success keeps its reason and all other columns stay |
| `Track17.Track17Requests.Save` | src/domain/job/sct/track17-request-job.ts:115 | each row of the chunk gets the columns of its copy, an undefined reason excepted, and every other row stays; the invariant is kept |
| `Track17.Track17Requests.End` | src/domain/job/sct/track17-request-job.ts:68-74 | a run that is done or dies writes nothing more |
| `Track17.Track17Requests.Insert` | src/domain/job/sct/track17-collect-job.ts:61-73 | a collected request starts READY with count 0 and no reason; the invariant is kept |
| `TrackingPush.SuccessWasSent` | src/domain/job/npm/tracking-push.job.ts:44-85 | over every interleaving of runs, inserts, failures and crashes a row is SUCCESS only if it itself, by its id, was sent, to the topic its sender read for its platform |
| `TrackingPush.MessagesAreTheBatch` | src/domain/job/npm/tracking-push.job.ts:43-72 | the messages of a run whose update took effect are a permutation of its fetched batch, one per platform and client |
| `TrackingPush.MessagesAreGood` | src/domain/job/npm/tracking-push.job.ts:44-70 | every message ever sent has one platform, the topic of the first configuration of that platform its run read, one client, and its rows in order |
| `TrackingPush.StatusChangedByUpdate` | src/domain/job/npm/tracking-push.job.ts:74-90 | a row changes its status only by the update of a run that fetched it and has sent all its messages; a failed run changes none |
| `TrackingPush.InvAlways` | src/domain/job/npm/tracking-push.job.ts:26-91 | the invariant holds at every moment of every behaviour |
| `TrackingPush.NextKeeps` | src/domain/job/npm/tracking-push.job.ts:26-91 | one insert, fetch, send, update or end keeps it |
| `TrackingPush.PlanAll` | src/domain/job/npm/tracking-push.job.ts:44-72 | the loops over platforms and clients make good messages, one per platform and client, of rows of the batch, that together are the batch unless a platform has no configuration |
| `TrackingPush.PlanPlatform` | src/domain/job/npm/tracking-push.job.ts:47-71 | one message per client of the platform, together the group |
| `TrackingPush.OrderBySorts` | src/domain/job/npm/tracking-push.job.ts:51-55 | the sort is a permutation in order of tracking number, timestamp ascending, event descending, strings compared by their first difference; rows equal in all three keep their order |
| `TrackingPush.BelowIsLower` | src/domain/job/npm/tracking-push.job.ts:51-55 | strings are compared at their first difference, a prefix being smaller |
| `TrackingPush.ClientMessage` | src/domain/job/npm/tracking-push.job.ts:49-70 | a message holds exactly the rows of its platform and client |
| `TrackingPush.TopicFound` | src/domain/job/npm/tracking-push.job.ts:46 | the topic is that of the first configuration of the platform, and there is none exactly when no configuration has it |
| `TrackingPush.BatchIsFirst` | src/domain/job/npm/tracking-push.job.ts:32-41 | the batch is READY rows in ascending id order, and a READY row is left out only when 500 with smaller ids are in |
| `TrackingPush.PushLog.Fetch` | src/domain/job/npm/tracking-push.job.ts:27-41 | past the queries the run holds the messages of its batch, the first 500 READY rows by id, none of which is left out before a later one; the invariant is kept |
| `TrackingPush.PushLog.Enqueue` | src/domain/job/npm/tracking-push.job.ts:70 | one message is sent; the invariant is kept |
| `TrackingPush.PushLog.Update` | src/domain/job/npm/tracking-push.job.ts:74-85 | exactly the rows of the batch become SUCCESS, every other row stays; the invariant is kept |
| `TrackingPush.PushLog.End` | src/domain/job/npm/tracking-push.job.ts:86-90 | a run that is done or throws changes no status |
| `CrawlerCollect.CrawlerTables.CollectPlatform` | src/domain/job/sct/service/crawler-process.service.ts:67-119 | ceil(quantity / 1000) iterations over the rows, in table order, of the transporter, platform, time span and accounts of the configuration, uncollected ones only if asked for; each page is the next thousand by offset, or as many thousands on as plans were saved, and each row of a page whose plans were saved gets a target |
| `CrawlerCollect.CountedSelects` | src/domain/ord/parcel/repository/parcel.repository.ts:159-211 | what both queries count and page are the wanted rows, column by column, in table order, without those whose number and account have a target |
| `CrawlerCollect.PageTaken` | src/domain/ord/parcel/repository/parcel.repository.ts:173-193 | once the first k uncollected rows have targets the query returns exactly the others: unique tracking numbers make it so |
| `CrawlerCollect.OffsetVisitsChunks` | src/domain/ord/parcel/repository/parcel.repository.ts:159-171 | the offset scheme visits the chunks of the matching rows in order |
| `CrawlerCollect.RequeryVisitsChunksExactly` | src/domain/job/sct/service/crawler-process.service.ts:81-118 | the re-query scheme visits them exactly when no plan but possibly the last failed to be saved |
| `CrawlerCollect.FailureRevisits` | src/domain/job/sct/service/crawler-process.service.ts:105-117 | a page whose plans were not saved is visited again in place of the next |
| `CrawlerCollect.SchemesAgree` | src/domain/job/sct/service/crawler-process.service.ts:67-119 | with nothing collected before and every plan saved both schemes write the same pages, which hold each matching parcel once |
| `CrawlerCollect.EveryParcelTargetedOnce` | src/domain/job/sct/service/crawler-process.service.ts:114-117 | every matching parcel then has exactly one target |
| `CrawlerCollect.InsertedOnce` | src/domain/job/sct/service/crawler-process.service.ts:105-117 | whatever fails to be saved, one run inserts no target twice, in either scheme |
| `CrawlerCollect.SecondTargetExactly` | src/domain/job/sct/service/crawler-process.service.ts:67-119 | a parcel ends with two targets exactly when it had one and the offset scheme visits it with its plans saved; asking again for uncollected rows never gives a second one |
| `CrawlerCollect.CollectedTwice` | src/domain/job/sct/service/crawler-process.service.ts:67-119 | a concrete collected parcel that the offset scheme gives a second target |
| `CrawlerCollect.LastParcelMissed` | src/domain/job/sct/service/crawler-process.service.ts:105-117 | a concrete run over 1001 parcels that never targets the last |
| `ParcelAging.GetDateRange` | src/domain/ord/parcel-aging/parcel-aging.service.ts:161-170 | the loop ends with day(b) - day(a) + 1 entries, one per day, none when day(a) > day(b) |
| `ParcelAging.ComputeTimeDiffExcludeHoliday` | src/domain/ord/parcel-aging/parcel-aging.service.ts:120-137 | the computation over the day list equals the rounded count of non-Sunday milliseconds, plus one when the start lies on a Sunday of an earlier day; undefined exactly when day(a) > day(b) |
| `ParcelAging.ComputeAging` | src/domain/ord/parcel-aging/parcel-aging.service.ts:109-118 | both agings and both Sunday flags |
| `ParcelAging.ClampedDifference` | src/domain/ord/parcel-aging/parcel-aging.service.ts:123-130 | the clamped moments are apart by the working time plus the whole Sundays strictly between; not ahead of each other on one Sunday or in reverse order |
| `ParcelAging.CountTrueIsSundays` | src/domain/ord/parcel-aging/parcel-aging.service.ts:132-134 | the list without its ends counts the Sundays strictly between |
| `ParcelAging.NonSundayWholeDays` | src/domain/ord/parcel-aging/parcel-aging.service.ts:139-152 | the integral over whole days is the number of non-Sundays |
| `ParcelAging.OneSundayAWeek` | src/domain/ord/parcel-aging/parcel-aging.service.ts:146-152 | any seven days in a row hold exactly one Sunday, and 4 January 1970 is one |
| `ParcelAging.SundayMoments` | src/domain/ord/parcel-aging/parcel-aging.service.ts:146-152 | a moment is on a Sunday exactly when it lies in the first 86,400,000 ms of a week of 604,800,000 ms counted from that day |
| `ParcelAging.RoundShift` | src/domain/ord/parcel-aging/parcel-aging.service.ts:131-135 | rounding before subtracting whole days equals rounding after it |
| `ParcelAging.ComputedIsAging` | src/domain/ord/parcel-aging/parcel-aging.service.ts:123-135 | clamp, round, subtract, clamp at zero gives the aging |
| `ParcelAging.AgingErrorBound` | src/domain/ord/parcel-aging/parcel-aging.service.ts:120-159 | for a <= b the result is between 43,200 ms below and 43,201 ms above the true non-Sunday time |
| `ParcelAging.SplitWorking` | src/domain/ord/parcel-aging/parcel-aging.service.ts:120-137 | splitting at b adds exactly the Sunday-end millisecond of b, and only across a day change |
| `ParcelAging.SplitAging` | src/domain/ord/parcel-aging/parcel-aging.service.ts:120-137 | two agings in a row are within 0.001 day of the aging of the whole, and add up to it exactly when what rounding took from the two, less the millisecond counted again, lies between -43,200 ms and 43,199 ms |
| `ParcelAging.SundayEndCountsAgain` | src/domain/ord/parcel-aging/parcel-aging.service.ts:120-137 | concrete moments from Saturday to Monday where the parts count 2 ms and the whole 1 ms |
| `ParcelAging.RoundedTwice` | src/domain/ord/parcel-aging/parcel-aging.service.ts:154-159 | two intervals of 0.0005 day are each rounded up to 0.001, and so is the whole |
| `ParcelAging.OuterRoundChangesNothing` | src/domain/ord/parcel-aging/parcel-aging.service.ts:89-97 | the second rounding changes nothing |
| `ParcelAging.StoredNullExactly` | src/domain/ord/parcel-aging/parcel-aging.service.ts:89-97 | the stored field is null exactly when the day order is reversed or less than half a unit of working time passed |
| `DailyQuantity.FullOuterJoin` | src/domain/job/srs/count-daily-parcel-quantity.job.ts:80-96 | with unique normalised keys in each list no two rows of the result share a key, every row of every list has one, and a row shows the declared, transferred and arrived quantity of exactly its own row in each list, null where there is none |
| `DailyQuantity.JoinLookups` | src/domain/job/srs/count-daily-parcel-quantity.job.ts:80-96 | looked up by key, the result holds the union of the keys and the quantity of each list |
| `DailyQuantity.TotalsConserved` | src/domain/job/srs/count-daily-parcel-quantity.job.ts:80-127 | the declared total is conserved; the others fall short by exactly what rows with equal normalised keys of their own list overwrite, which is 0 exactly when no overwritten row has a quantity |
| `DailyQuantity.NothingOverwrittenExactly` | src/domain/job/srs/count-daily-parcel-quantity.job.ts:98-127 | nothing is overwritten exactly when every row that a later one of its key follows has no quantity |
| `DailyQuantity.UniqueLosesNothing` | src/domain/job/srs/count-daily-parcel-quantity.job.ts:98-127 | so nothing is when the keys are unique |
| `DailyQuantity.TransferredLost` | src/domain/job/srs/count-daily-parcel-quantity.job.ts:45-54 | counts 3 and 4 under a null and an UNKNOWN channel total 4 in the result |
| `DailyQuantity.MergeAllMeans` | src/domain/job/srs/count-daily-parcel-quantity.job.ts:98-127 | in general the last item of a key wins, other columns stay, keys are the union and stay unique |
| `DailyQuantity.MergeOneMeans` | src/domain/job/srs/count-daily-parcel-quantity.job.ts:99-125 | one item sets one column of one key, adding a row only for a new key |
| `DailyQuantity.BuildQuantityDistributionArray` | src/domain/job/srs/count-daily-parcel-quantity.job.ts:80-96 | the declared list, changed in place, is the merge of the three normalised lists |
| `DailyQuantity.QuantityList.MergeParcelQuantityArray` | src/domain/job/srs/count-daily-parcel-quantity.job.ts:98-127 | the loop over items equals the merge function |
| `DailyQuantity.QuantityList.SetNullElementAsUnknown` | src/domain/job/srs/count-daily-parcel-quantity.job.ts:45-54 | null and empty values of the five columns of every row become UNKNOWN in place; date, prefix and quantities stay |
| `DailyQuantity.QuantityList.FindIndex` | src/domain/job/srs/count-daily-parcel-quantity.job.ts:100-110 | the first row with the key, -1 exactly when there is none |
| `AverageAging.MergeAgings` | src/domain/job/srs/parcel-aging.job.ts:60-101 | the list, merged by index and then normalised in place, equals the merge function followed by normalisation |
| `AverageAging.MergedMeans` | src/domain/job/srs/parcel-aging.job.ts:60-101 | the result row by row: rows of the first list in place with their transferred average, one more row for each other key, the last arrived average on the first row of a key, and the five columns filled with UNKNOWN where null or empty |
| `AverageAging.OrdersAgreeExactly` | src/domain/job/srs/parcel-aging.job.ts:72-101 | normalising after merging agrees with normalising before it exactly when no item adds a key alike to an earlier different one and, in each class of alike rows, the averages looked up by equal and by alike keys agree: a condition on the two lists as fetched, null averages included |
| `AverageAging.KeysLineUp` | src/domain/job/srs/parcel-aging.job.ts:72-94 | the two merges line up exactly when no item adds an alike key; otherwise the raw one has more rows |
| `AverageAging.MergedArrived` | src/domain/job/srs/parcel-aging.job.ts:72-94 | a row shows the last average of its key when it is the first of that key, and none otherwise |
| `AverageAging.UniqueExactly` | src/domain/job/srs/parcel-aging.job.ts:60-101 | the result has one row per key exactly when the fetched rows have distinct keys and no two different keys of the two lists normalise to the same one |
| `AverageAging.TwoRowsOneKey` | src/domain/job/srs/parcel-aging.job.ts:95-101 | a concrete pair of rows that keep one key although both orders agree |
| `AverageAging.OrdersDiffer` | src/domain/job/srs/parcel-aging.job.ts:72-101 | a concrete pair of rows on which the orders differ |
| `AverageAging.ParseDateArray` | src/domain/job/srs/parcel-aging.job.ts:145-154 | every day from the first to the last, once and in order |
| `CheckKeys.GetControlKey` | src/domain/job/sct/policy/colissimo-tracking-policy.ts:68-84 | R for a part that ends with F; otherwise the key digit of the weighted total, white space counting 0, and NaN when any other character occurs |
| `CheckKeys.GetEYControlKey` | src/domain/job/sct/policy/colissimo-tracking-policy.ts:87-109 | the EY key digit of the weighted total; NaN for a part with other characters or more than eight |
| `CheckKeys.GetTrackingNumber` | src/domain/job/sct/policy/colissimo-tracking-policy.ts:51-61 | product part, tracking part (without its zeros for EY), key, and FR for EY, which throws unless the part starts with 00 |
| `CheckKeys.Mod10Total` | src/domain/job/sct/policy/colissimo-tracking-policy.ts:75-82 | every second digit counts three times |
| `CheckKeys.EYTotal` | src/domain/job/sct/policy/colissimo-tracking-policy.ts:87-94 | the eight digits of an EY number are weighted 8, 6, 4, 2, 3, 5, 9 and 7 |
| `CheckKeys.EYKeyCompletes` | src/domain/job/sct/policy/colissimo-tracking-policy.ts:95-108 | the EY key completes the total to a multiple of eleven, but is 5 for such a total and 0 where ten would be missing |
| `CheckKeys.KnownKeys` | src/domain/job/sct/policy/colissimo-tracking-policy.ts:68-109 | 0123456789 has the mod-10 key 5 and 47312482 the EY key 9 |
| `CheckKeys.DigitCharacters` | src/domain/job/sct/policy/colissimo-tracking-policy.ts:75 | digits are read and written by their value, and letters are no numbers |
| `CheckKeys.EndingF` | src/domain/job/sct/policy/colissimo-tracking-policy.ts:69-72 | the key is R exactly for a part that ends with F |
| `CheckKeys.SpacesAreZero` | src/domain/job/sct/policy/colissimo-tracking-policy.ts:75 | of the other characters exactly white space is a number, zero |
| `CheckKeys.Valid12Means` | src/domain/job/sct/policy/dispeo-tracking-policy.ts:46-51 | a valid number character by character: ten digits behind the product part, 00 first for EY |
| `CheckKeys.Mod10KeyCompletes` | src/domain/job/sct/policy/colissimo-tracking-policy.ts:83 | the key is the one digit that completes the weighted total to a multiple of ten |
| `CheckKeys.EYKeyCollides` | src/domain/job/sct/policy/colissimo-tracking-policy.ts:95-108 | the EY key is one digit, and two remainders share one exactly when they are 0 and 6 |
| `CheckKeys.Mod10DetectsSubstitution` | src/domain/job/sct/policy/colissimo-tracking-policy.ts:68-84 | every substitution of one digit changes the mod-10 key |
| `CheckKeys.Mod10DetectsSwapExactly` | src/domain/job/sct/policy/colissimo-tracking-policy.ts:68-84 | a swap of neighbours leaves it exactly when they are equal or 5 apart |
| `CheckKeys.EYDetectsSubstitutionExactly` | src/domain/job/sct/policy/colissimo-tracking-policy.ts:87-109 | a substitution goes unnoticed exactly when the remainders are 0 and 6 |
| `CheckKeys.EYDetectsSwapExactly` | src/domain/job/sct/policy/colissimo-tracking-policy.ts:87-109 | so does a swap of distinct neighbours |
| `CheckKeys.SwapUnnoticed` | src/domain/job/sct/policy/colissimo-tracking-policy.ts:68-84 | 05 and 50 have one mod-10 key |
| `CheckKeys.EYSubstitutionUnnoticed` | src/domain/job/sct/policy/colissimo-tracking-policy.ts:87-109 | 00000000 and 90000000 have one EY key, with remainders 0 and 6 |
| `CheckKeys.EYSwapUnnoticed` | src/domain/job/sct/policy/colissimo-tracking-policy.ts:87-109 | so have 03100000 and 30100000 |
| `CheckKeys.NormaliseDispeo` | src/domain/job/sct/policy/dispeo-tracking-policy.ts:46-51 | any string: 13 characters stay, otherwise the first two and the next ten characters get a key, or the call throws |
| `CheckKeys.ValidNumber` | src/domain/job/sct/policy/dispeo-tracking-policy.ts:46-51 | a valid 12-character number becomes its product part, its tracking part and one key digit, for EY without the zeros and with FR |
| `CheckKeys.DispeoIdempotent` | src/domain/job/sct/policy/dispeo-tracking-policy.ts:46-51 | the result always has 13 characters and normalises to itself |
| `CheckKeys.DispeoInjective` | src/domain/job/sct/policy/dispeo-tracking-policy.ts:46-51 | no two valid 12-character numbers become the same |
| `Reconciliation.Task.AddReconcileDetails` | src/domain/scb/reconciliation/reconciliation.service.ts:132-216 | the details are exactly those of the lines in order, up to the first save that throws, each with the columns of its line, the number k + 1, the fees that the first fitting price and rate give, each rounded to the nearest millionth, and the error message that names what is missing; landed plus pending increments always count successes and failures, whenever they land |
| `Reconciliation.Task.SaveDetail` | src/domain/scb/reconciliation/reconciliation.service.ts:204-212 | one increment of the right counter is sent per saved detail |
| `Reconciliation.Task.Land` | src/domain/scb/reconciliation/reconciliation.service.ts:207-212 | an increment that lands, in any order, keeps the count |
| `Reconciliation.Task.LandSome` | src/domain/scb/reconciliation/reconciliation.service.ts:207-212 | any number of increments lands while the run waits, and the counts are kept |
| `Reconciliation.Task.CountersLand` | src/domain/scb/reconciliation/reconciliation.service.ts:207-212 | once all have landed, success + failed = total, and failed is the number of error lines |
| `Reconciliation.LineNumbers` | src/domain/scb/reconciliation/reconciliation.service.ts:172-186 | detail k is that of line k with number k + 1 |
| `Reconciliation.BuiltDetails` | src/domain/scb/reconciliation/reconciliation.service.ts:144-202 | the details built from the lines mean, column by column, what their lines, prices and rates say |
| `Reconciliation.ErrorExactly` | src/domain/scb/reconciliation/reconciliation.service.ts:170-202 | a line is an error exactly when it has no payable fuel fee and exactly when it has a message |
| `Reconciliation.FirstPrice` | src/domain/scb/reconciliation/reconciliation.service.ts:156-161 | the first fitting price is used |
| `Reconciliation.PriceFound` | src/domain/scb/reconciliation/reconciliation.service.ts:156-161 | there is a price exactly when one fits product, weight range and country or ALL, and it is the first that does |
| `Reconciliation.FirstRate` | src/domain/scb/reconciliation/reconciliation.service.ts:164-169 | the first fitting rate is used |
| `Reconciliation.RateFound` | src/domain/scb/reconciliation/reconciliation.service.ts:164-169 | there is a rate exactly when one fits month, account and product, and it is the first that does |
| `Reconciliation.FuelErrorBound` | src/domain/scb/reconciliation/number.utils.ts:38-44 | rounding in two stages costs at most 0.5e-6 * (1 + |rate|/100) a line |
| `Reconciliation.TotalFuelErrorBound` | src/domain/scb/reconciliation/reconciliation.service.ts:170-173 | the total payable fuel fee is within n * 0.5e-6 * (1 + max rate/100) of the exact total |
| `Reconciliation.BuildSummary` | src/domain/scb/reconciliation/reconciliation.service.ts:225-234 | one row per account with the sums of its lines, and each column adds up to the sum over all lines |
| `Reconciliation.SummaryAdds` | src/domain/scb/reconciliation/reconciliation.service.ts:225-234 | a summary row starts at zero and each line of its account, and no other, adds its four fees, null counting as zero |
| `Reconciliation.AccountsSplit` | src/domain/scb/reconciliation/reconciliation.service.ts:225-234 | the lines of a set of accounts sum to those of one account plus the others |
| `ConfigMerge.Memory.AssignObj` | src/app/config/configuration.ts:31-46 | written key by key, in any order, into the target itself, the result is the recursive merge; nothing outside the target changes, and a key of the source alone shares the object of the source |
| `ConfigMerge.ReadMeans` | src/app/config/configuration.ts:36-44 | a path is read key by key, with nothing below a leaf or a missing key |
| `ConfigMerge.MergeReads` | src/app/config/configuration.ts:31-46 | what the result holds at every path, in terms of target and source |
| `ConfigMerge.LeavesOfMerge` | src/app/config/configuration.ts:31-46 | each leaf of the source, and each leaf of the target that the source neither reaches nor cuts off, is a leaf of the result |
| `ConfigMerge.LeavesComeFrom` | src/app/config/configuration.ts:31-46 | and the result has no other leaf |
| `ConfigMerge.KeysOfMerge` | src/app/config/configuration.ts:36-44 | where both hold an object the keys are the union |
| `ConfigMerge.MergeTwice` | src/app/config/configuration.ts:31-46 | merging the same source again changes nothing |
| `CityName.HandlerSplitsAndJoins` | src/domain/utils/cityRule.service.ts:23-31 | the chain of replacements is: strip, split into words, SAINT to ST and SAINTE to STE, join with single spaces |
| `CityName.StripMeans` | src/domain/utils/cityRule.service.ts:26 | stripping keeps A-Z and 0-9 in place and puts a space for anything else |
| `CityName.AbbreviatedMeans` | src/domain/utils/cityRule.service.ts:28-29 | SAINT becomes ST and SAINTE becomes STE, word by word, and other words stay |
| `CityName.CollapseSpaced` | src/domain/utils/cityRule.service.ts:26-27 | collapsing white space gives the words with single spaces |
| `CityName.ReplaceSpaced` | src/domain/utils/cityRule.service.ts:28-29 | a whole-word replacement acts on exactly the words equal to it |
| `CityName.TrimSpaced` | src/domain/utils/cityRule.service.ts:30 | trimming removes the outer spaces alone |
| `CityName.HandlerOutput` | src/domain/utils/cityRule.service.ts:23-31 | the output holds A-Z, 0-9 and single inner spaces only |
| `CityName.HandlerIdempotent` | src/domain/utils/cityRule.service.ts:23-31 | normalising twice is normalising once |
| `Chunks.ChunkPartitions` | src/domain/job/npm/parcel-push.job.ts:62 | chunks laid end to end are the list, each with 1 to n elements and all but the last with n |

## Left out

Of the system:

- Kafka, SFTP, S3, SQL and HTTP themselves: they are maps, sets and sequences; reads see earlier writes although the source reads from a replica; rows of file logs and all timestamps are not modelled.
- What the carrier track handlers, CSV parsing, `uploadTrackingNumberToS3`, the proof executors, Excel files and chat messages do; a delivered chunk counts as handled.
- Controllers other than the dispatcher, entities, migrations, guards, and the jobs not named above.
- Time zones and daylight saving: days have 24 hours, moments are local wall-clock milliseconds, and `setDateInterval` is not modelled. Null dates are not either.
- Floating point: fees and agings are rationals.
- Liveness of SFTP cleaning: both Colissimo clear jobs select the same records on different servers and archive a record whose file is absent there, so "ARCHIVED implies gone from SFTP" is not claimed; nor is that the fileUrl of a record always resolves, which a re-extraction during a move can break.

Of single members:

- TrackingFilePipeline.NoFileLost: assumes unique file names, that a copy within S3 succeeds when its source exists (`copyObject` swallows errors), and no retries folder; the pipeline itself is modelled on values, with S3 paths as a name and a number of `ignore/` segments.
- TrackingFilePipeline.DeletionJustified: a clear run is one record with its own folder listing, so that the records of a chunk of three interleave like any other runs.
- TrackingFileJobs.ClearFileRecords: takes the records of a chunk of three one after the other, which is one of their interleavings; the machine covers the rest, and failures of single calls.
- TrackingFileJobs.ParseFileRecords: records of one query have distinct ids, and the tables satisfy the pipeline invariant.
- ParcelPush.NothingLost: the uuId and sync fields of log rows and messages, and a null platform, are not modelled; the machine works on values, and the methods beside it on one service object.
- PlanMerge.Handle: assumes that each upload yields a fresh path and that nobody else writes plans or targets meanwhile; the order of groups and of query results is arbitrary.
- JobDispatcher.MutualExclusion: is about jobs whose `execute` is awaited to the end, as `FtpJob` is; jobs that inherit `JobInterface.execute` do not await `handle`, and a run by way of the reset endpoint is excluded.
- Track17.Track17Requests.Save: a chunk is saved in one transaction, all or nothing; columns that the job does not change are not modelled.
- TrackingPush.PushLog.Fetch: the messages are decided when the batch is there and sent one by one; platform and client are not null, and when a platform has no configuration the messages before it are only claimed to be good ones of rows of the batch.
- CrawlerCollect.CrawlerTables.CollectPlatform: one platform of one configuration; the points of the day, the file and the plans are reduced to whether the plans were saved; parcels do not change while they are paged.
- DailyQuantity.BuildQuantityDistributionArray: the three lists are distinct objects; a row is a value in its list, so aliasing of rows is not captured.
- AverageAging.MergeAgings: the lists are sequences; fetching them concurrently only permutes them, and they are arbitrary here. An average that is null and one that was never set are the same.
- CheckKeys.NormaliseDispeo: characters outside the basic plane are not modelled.
- Reconciliation.Task.AddReconcileDetails: a save that throws saved nothing, and every increment that was sent lands at last.
- ConfigMerge.Memory.AssignObj: is about a target that is a tree and shares no object with the source, as freshly built configurations are; null and undefined values are excluded.
- CityName.HandlerIdempotent: removing accents and upper-casing is a parameter that leaves upper-case letters, digits and spaces alone; `replaceStrByRules` is not modelled.
