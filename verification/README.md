# Verified model of the hardening pipeline

BeetleShield's backend takes uploaded Android packages, queues hardening tasks for them, lets one worker run the
engine step by step, stores the hardened artifacts, and shows what became of it all. This project models that in
Dafny and proves what the design relies on. `dafny verify dfyconfig.toml` checks everything.

## How it is built

**The pipeline as a state machine** (`Tables`, `Pipeline`). The state is the database, the set of objects in the
bucket, the open creation transactions with their row locks, and the worker's position with its volatile variables.
Actions are single atomic calls of three kinds of actors: any number of API calls (uploads, app deletions, task
creations in ten small steps under the app's row lock), one worker, and a crash that wipes everything volatile.
Every call can fail, and any actor may act between any two calls of another. Four history fields, which no action
reads, record possibly leaked objects, tasks stranded in `running`, the newest task of each app, and the order of
completions; what each of them means is itself proved.

**Proofs over all runs** (`Invariants`, `ApiCalls`, `WorkerSteps`, `WorkerEndings`, `Theorems`, `Artifacts`,
`Lifecycle`, `Queue`, `Attempts`, `Success`, `Leaks`, `Creation`, `Histories`, `DeleteRace`; for the strategy table
`StrategyRaces`). One inductive invariant, kept by every action, and the theorems that follow from it or by a second
induction over runs.

**The code in its own form** (`Repository`, `World`, `Worker`, `HardeningService`, `AppService`, `StrategyLibrary`,
`EngineCommand`, `Dashboard`). The repository is a class whose methods update the tables in place, each proved equal to
its transition function. The strategy service is a class that holds the queries and writes of its repository as well.
The worker is a class with the loops, early returns and deferred calls of the source. It runs in surroundings in which
an arbitrary script lets API calls happen between its calls and makes calls fail. A ghost copy of the state machine
follows it, and moves only by actions of the machine that agree with the real tables and objects. So every execution
of the worker class is a run of the machine, and all theorems hold of its tables.

**Strings and reads** (`ObjectKeys`, `Strategy`, `Reads`, `LogPolling`, `Pages`, `PagesByTime`): object keys and why
owners never collide, effective flags and risk levels, reports and downloads, following a log, and paging through lists.

## Where the code falls short of a property, and exactly when

- Deleting an app checks for active tasks without the row lock that a creation takes. `DeleteRace.DeleteIsSafeIff`:
  the delete keeps the invariants if and only if the app has no active task at the moment of the DELETE. Otherwise
  that task is an orphan (`DeleteRace.DeleteOrphans`), and once it is started every recovery aborts for good
  (`DeleteRace.OrphanBlocksRecoveryForever`). `DeleteRace.RaceEndsRecovery` is one history of it in which no call
  fails. The comment at `internal/db/db.go:20-23` states the intended rule; the state machine takes the delete as one
  atomic step.
- Two uploads of the same package, leading digest and file name share one source object
  (`AppService.SourceKeyInjective`). Deleting one app keeps the sources of the others if and only if none shares its
  key (`AppService.DeleteSparesOthersIff`; `AppService.SharedSourceIsLost` is a history where one does). A failed save
  keeps all sources if and only if its undo fails too or no app has that key (`AppService.FailedSaveSparesOthersIff`);
  uploading any file twice is a way to break it (`AppService.SecondUploadTakesTheSource`,
  `AppService.AnUploadThatTakes`).
- A task can stay `running` without a worker. `Lifecycle.TasksRunOneAtATime`: after any run the running tasks are
  exactly the one the worker executes and the stranded ones. `Lifecycle.WorkStrands` and `Lifecycle.StuckGrowth`: a
  task is stranded by a crash or by a failed FailTaskForApp, for example because the summary exceeds its 500
  characters, and by nothing else; the next successful recovery clears all of them. `Histories.ATaskIsStranded` is a
  history without a crash that ends with one.
- The dashboard's queries do not share a snapshot. The hourly trend adds up to the day's total if and only if no task
  of the day was created between the two queries (`Dashboard.TrendAgreesIff`; `Dashboard.TrendCanDisagree` is a
  history where one was), and the processing count stays within the queue count if and only if no more of the counted
  tasks finish between the two queries than other tasks are active at the second
  (`Dashboard.ProcessingWithinQueueIff`; in `Dashboard.ProcessingCanOutrunQueue` one finishes and no other is active).
- The strategy table has no unique index, and its service looks up and validates before it writes. Over all
  interleavings of these halves there is at most one default row and no name twice, throughout, if and only if no write
  lands on a table where its check would fail by then (`StrategyRaces.InterleavingKeepsOrderIff`). Two creates of one
  name and two first saves of the default can clash (`StrategyRaces.TwoCreatesClash`,
  `StrategyRaces.TwoFirstSavesClash`).
- The engine's two output scanners write log rows side by side (`internal/worker/engine.go:49-53`), so an id can show
  up after a higher one. A client that polls holds exactly the log up to its cursor if and only if no matching row
  ever came at or below the cursor (`LogPolling.PollingLosesNothing`); such a row never reaches it
  (`LogPolling.LateRowIsNeverSeen`), and two polls suffice (`LogPolling.TwoPollsLoseARow`).
- The app, user and strategy lists are ordered by creation time alone. All queries return one order if and only if the
  creation times are pairwise distinct (`PagesByTime.OrderByTimeIsUniqueIff`), and the pages always hold every row
  exactly once if and only if no page ends between two rows with the same time
  (`PagesByTime.PagesByTimePartitionIff`, `PagesByTime.TieRepeatsRow`). The task list orders by id as well and has no
  such case (`Pages.PagesPartitionTheList`).

## Model

| member | source | states |
|---|---|---|
| Theorems.StepKeepsInv | internal/repository/hardening_repository.go:57-278 | every action of every actor, crashes included, keeps the full invariant: row shapes, open transactions, app/task coherence, worker position, objects, risk, stranded tasks |
| Theorems.ReachableInv | internal/worker/hardening_worker.go:121-152 | the invariant holds in every state that any run of API calls, worker calls and crashes can reach |
| ApiCalls.ApiKeepsInv | internal/repository/hardening_repository.go:57-99 | uploads, atomic app deletions and every small step of a creation, interleaved in any way, keep the invariant |
| WorkerEndings.WorkKeepsInv | internal/worker/hardening_worker.go:165-361 | every call of the worker, succeeding or failing, keeps the invariant |
| WorkerEndings.CrashKeepsInv | internal/worker/hardening_worker.go:61-67 | a crash at any point keeps the invariant |
| Theorems.ActionFollows | internal/repository/hardening_repository.go:128-199 | one action leaves the frozen fields of a task row alone and moves its status only queued to running, or running to completed or failed; a finished row never changes |
| Theorems.RunEvolves | internal/repository/hardening_repository.go:128-199 | the same over any run: the strategy snapshot never changes, the status never moves back |
| Theorems.CompletedArtifactsExist | internal/worker/hardening_worker.go:235-294 | in every reachable state a completed task's recorded objects are in the bucket, its unsigned key is non-empty and its sizes are positive |
| Theorems.CompletedForever | internal/worker/hardening_worker.go:68-86 | no later rollback, recovery, deletion or crash changes a completed row or removes its objects |
| Artifacts.ArtifactsAreNamed | internal/worker/hardening_worker.go:243-270 | in every reachable state a recorded unsigned key ends in "unsigned" and its extension, a recorded signed key in "signed_test", under "hardening" and the task number; while the task's app exists the first segment is its sanitized package name and the extension that of its source |
| Artifacts.RunKeepsNames | internal/worker/hardening_worker.go:363-365 | over any run every recorded key is the key of its own task, kind and app, and the worker's job stays in step with its app |
| WorkerEndings.DeleteSparesCompleted | internal/worker/hardening_worker.go:352-365 | deleting a key owned by an unfinished task touches no object of a completed one |
| Theorems.EveryArtifactAccounted | internal/repository/hardening_repository.go:137-153 | in every reachable state every artifact object belongs to a completed or running row, to the worker's current uploads, to a pending cleanup, or to the leak history |
| Theorems.LeakGrowth | internal/worker/hardening_worker.go:61-86 | the leak history never shrinks; it grows only by the key of a failed delete or of an upload that landed and reported an error, or in a crash by unrecorded uploads and undone cleanup |
| Leaks.RunKeepsLeaksDoomed | internal/worker/hardening_worker.go:61-86 | after any run every leaked key belongs to a task that has failed, is stranded, or has been given up by the worker |
| Leaks.LeaksAreNobodys | internal/worker/hardening_worker.go:61-67 | in every reachable state no leaked key is a key of a completed task, so deleting all leaked objects takes nothing from anyone |
| Theorems.CleanRunsAreTight | internal/worker/hardening_worker.go:235-294 | without crashes, failed deletes and uploads that land unnoticed every artifact object is an upload in progress or belongs to a completed task, throughout the run |
| Theorems.ConservationWhenIdle | internal/worker/hardening_worker.go:235-294 | without crashes, failed deletes and uploads that land unnoticed, whenever the worker is idle the artifact objects are exactly the keys of the completed tasks |
| Lifecycle.OneActiveTaskPerApp | internal/repository/hardening_repository.go:57-85 | over all interleavings an app has at most one queued or running task, and that task's app exists |
| Lifecycle.AppStatusFollowsNewestTask | internal/repository/hardening_repository.go:259-278 | an app is processing, completed or failed exactly when its newest task is queued or running, completed, or failed, and unprotected exactly when it has no task |
| Lifecycle.DownloadsAreHonest | internal/service/hardening_service.go:206-226 | an unknown artifact name is refused; for queued and failed tasks every known one is reported missing; a completed task has its unsigned artifact, and a signed one exactly when one was recorded, else it is reported missing; every link leads to an object whose last segment names the kind that was asked for, and for completed tasks that object exists |
| Lifecycle.ReportsAreHonest | internal/service/hardening_service.go:248-262 | no task, no report and no link; a task has a report exactly when it is completed, with the scores and the risk of its frozen strategy, and naming the signed output and its digest, or the unsigned one if there is no signed one |
| Lifecycle.StepsKeepTheirShape | internal/repository/hardening_repository.go:87-99 | every task always has the six named steps in order: successes, at most one running or failed, then waiting ones; all waiting while queued, all successful once completed |
| Lifecycle.RiskFollowsLastCompletion | internal/repository/hardening_repository.go:155-170 | an app has a risk level exactly when a task of it completed; it equals the level in the report of the most recently completed one |
| Lifecycle.CompletionsRecordOrder | internal/repository/hardening_repository.go:155-170 | an action appends a task to the completion history if and only if it moves that task from running to completed, and appends nothing else |
| Lifecycle.RecoveryNeverAborts | internal/repository/hardening_repository.go:207-257 | in every reachable state every running task has its app row, so recovery meets no missing row |
| Lifecycle.RecoveryIsAllOrNothing | internal/repository/hardening_repository.go:207-257 | a committed recovery leaves no running task, fails each recovered task with its app and its running steps and changes nothing else in these rows, touches no other row, and cleans up exactly the recorded keys of the recovered rows |
| Lifecycle.StuckGrowth | internal/worker/hardening_worker.go:101-112 | only a crash or a failed FailTaskForApp can strand a task in running |
| Lifecycle.WorkStrands | internal/worker/hardening_worker.go:88-115 | a successful recovery empties the stranded set, a failed FailTaskForApp on an uncommitted task adds that still running task, and no other worker call changes the set |
| Lifecycle.NothingStranded | internal/worker/hardening_worker.go:88-115 | runs without those two strand nothing |
| Lifecycle.TasksRunOneAtATime | internal/worker/hardening_worker.go:88-149 | after any run the running tasks are exactly the stranded ones and, apart from them, the one the worker executes; while it is idle they are the stranded ones; without strandings there are none of those |
| Histories.ATaskIsStranded | internal/worker/hardening_worker.go:101-112 | a history without a crash after which the worker idles and a task runs that nobody works on |
| Queue.StartedAtMostOnce | internal/repository/hardening_repository.go:128-135 | two successful starts in any run, crashes in between included, are of different tasks |
| Queue.WaitingShrinks | internal/repository/hardening_repository.go:112-126 | with creation keys in commit order, starts plus the number of tasks still ahead never exceed the number ahead at the beginning |
| Queue.PickedWithinBound | internal/repository/hardening_repository.go:112-126 | a task with k tasks ahead has left the queue after k + 1 starts, whatever arrives later |
| Queue.HeadStaysPicked | internal/worker/hardening_worker.go:88-99 | what the worker picked is still the head of the queue when it is marked running |
| Queue.WaitingShrinksAnyway | internal/repository/hardening_repository.go:112-126 | for any order of commits the same bound holds with the overtaking commits added, and one for a task picked before |
| Queue.PickedDespiteOvertaking | internal/repository/hardening_repository.go:112-126 | from any reachable state a task with k ahead has left the queue after more than k starts beyond the overtaking commits and one task picked before |
| Attempts.AttemptLedger | internal/worker/hardening_worker.go:165-297 | at every point of an attempt the uploads and deletes so far are those its position implies; no key is uploaded twice |
| Attempts.ReversedAt | internal/worker/hardening_worker.go:352-361 | the rollback's n-th key is the n-th upload from the end |
| Attempts.AttemptDeletesExactlyItsUploads | internal/worker/hardening_worker.go:187-242 | if completion committed no delete was issued, even after a failed directory removal, and FailTaskForApp changes nothing; otherwise every upload got one delete attempt in reverse order |
| Success.SuccessAdvances | internal/worker/hardening_worker.go:165-317 | every succeeding call of an attempt keeps it on the way to completion and brings it nearer to its end |
| Success.NextCall | internal/worker/hardening_worker.go:165-317 | until its end an attempt on that way always has an enabled call that can succeed |
| Success.SuccessCompletes | internal/worker/hardening_worker.go:165-297 | among any API calls, as long as no call of the worker fails, an attempt never turns back, makes fewer than 60 calls, and leaves with its task completed |
| Creation.CreationIsARun | internal/repository/hardening_repository.go:57-99 | for a free app the ten small steps of a creation can run, and together do what the repository's method does at once |
| DeleteRace.DeleteIsSafeIff | internal/service/app_service.go:226-236 | an unguarded delete keeps the invariants if and only if the app has no active task at that moment; recovery stays possible if and only if it has no running one |
| DeleteRace.CheckThenDeleteOrphans | internal/service/app_service.go:226-236 | a run in which the check succeeds, a creation commits, and the delete leaves a queued task without its app |
| DeleteRace.DeleteOrphans | internal/service/app_service.go:226-236 | in every reachable state the unguarded delete of an unlocked app makes an orphan of its active task |
| DeleteRace.OrphanBlocksRecoveryForever | internal/repository/hardening_repository.go:207-257 | in every run from an orphan on, queued or running, it stays active, a running one stays running, and whenever it is running recovery aborts |
| DeleteRace.RaceEndsRecovery | internal/service/app_service.go:226-236 | one history without a failing call: check, creation, delete, recovery, pick, start; after it no run can recover again |
| Repository.HardeningRepository.CreateTaskWithStepsForApp | internal/repository/hardening_repository.go:57-85 | creates the row, its six default steps and the processing status together or nothing; refused exactly for a missing app, an active task or a used task number |
| Repository.HardeningRepository.InsertSteps | internal/repository/hardening_repository.go:87-99 | six waiting steps with sort orders 1 to 6 |
| Repository.HardeningRepository.HasActiveTaskForApp | internal/repository/hardening_repository.go:101-110 | whether a queued or running task of the app exists |
| Repository.HardeningRepository.NextQueuedTask | internal/repository/hardening_repository.go:112-126 | the queued row that is least by creation time and id, or none if there is none |
| Repository.HardeningRepository.MarkTaskRunning | internal/repository/hardening_repository.go:128-135 | moves a queued row to running, or reports an error and changes nothing |
| Repository.HardeningRepository.RecordArtifacts | internal/repository/hardening_repository.go:142-153 | writes the six artifact fields whatever the status |
| Repository.HardeningRepository.TransitionInTransaction | internal/repository/hardening_repository.go:259-278 | task and app move together and only from the expected status; an error in either update leaves both as they were |
| Repository.HardeningRepository.CompleteTaskForApp | internal/repository/hardening_repository.go:155-170 | running to completed with the app completed and its risk level set |
| Repository.HardeningRepository.FailTaskForApp | internal/repository/hardening_repository.go:187-199 | running to failed with all artifact fields cleared; refused if the summary exceeds its column |
| Repository.HardeningRepository.RecoverRunningTasks | internal/repository/hardening_repository.go:207-257 | the loop equals the one-shot recovery of all running tasks, or changes nothing; the returned rows are the pre-transition rows of exactly the running tasks |
| Repository.HardeningRepository.StartStep | internal/repository/hardening_repository.go:444-481 | starts a waiting step of a running task after all earlier steps succeeded, and nothing else |
| Repository.HardeningRepository.FinishStep | internal/repository/hardening_repository.go:483-501 | finishes a running step only |
| World.Surroundings.Yield | internal/worker/hardening_worker.go:121-152 | whatever API calls run between two calls of the worker, tables and objects stay those of a run of the machine, and the worker's position stays |
| World.Surroundings.Crash | internal/worker/hardening_worker.go:121-128 | a restart begins before recovery, with open transactions rolled back and the tables and the bucket as they were |
| Worker.HardeningWorker.BeginStep | internal/worker/hardening_worker.go:299-306 | finds the k-th step and starts it, or gives up without anything to roll back |
| Worker.HardeningWorker.EndStep | internal/worker/hardening_worker.go:307-317 | finishes the step it began even though others ran in between, then goes to the next step or to completion, or unwinds |
| Worker.HardeningWorker.FailStep | internal/worker/hardening_worker.go:307-314 | drops what FinishStepFailed answers and unwinds |
| Worker.HardeningWorker.PickNext | internal/worker/hardening_worker.go:88-99 | loads the head of the queue with its number, snapshot, and the package name and source of its app, which exists; nothing without an error means that nothing is queued |
| Worker.HardeningWorker.ReadOutputs | internal/worker/hardening_worker.go:243-270 | the unsigned key, size and digest are those of the unsigned output, the signed ones those of the signed output if it is there and non-empty, and otherwise blank |
| Worker.HardeningWorker.UploadArtifacts | internal/worker/hardening_worker.go:328-350 | puts the unsigned key and then the signed one if there is one, stops at the first error, and returns exactly those it has put |
| Worker.HardeningWorker.UploadAndRecord | internal/worker/hardening_worker.go:274-288 | uploads are known to the rollback even when recording or finishing the step fails |
| Worker.HardeningWorker.RollBackArtifacts | internal/worker/hardening_worker.go:352-361 | one delete attempt for every upload, last first, past failing deletes |
| Worker.HardeningWorker.RunTask | internal/worker/hardening_worker.go:165-297 | the delete log grows by nothing if completion committed, otherwise by the reversed uploads, under every failure script; no error means the task is completed, after a commit an error means exactly that the work directory could not be removed, and without a failing call there is none |
| Worker.HardeningWorker.ProcessNext | internal/worker/hardening_worker.go:88-115 | the task it worked on ends completed with no delete, or with all uploads deleted once and failed, or running and stranded if that last write failed too; without a failing call there is no error, and if it then found no work nothing is queued |
| Worker.HardeningWorker.CleanupRecoveredArtifacts | internal/worker/hardening_worker.go:68-86 | one delete attempt for every non-empty key of the recovered rows, in order, past failing deletes |
| Worker.HardeningWorker.RecoverInDatabase | internal/worker/hardening_worker.go:49-57 | after a successful recovery no row is running, the tables are the one-shot recovery of a reachable state, and the returned rows are all rows that were running there, as they were |
| Worker.HardeningWorker.RecoverRunning | internal/worker/hardening_worker.go:49-86 | deletes exactly the recorded keys of all rows that were running in the state it recovered, and nothing after an error |
| Worker.HardeningWorker.Start | internal/worker/hardening_worker.go:121-152 | any number of rounds leaves tables and objects in a reachable state of the machine |
| Worker.HardeningWorker.Outlive | internal/worker/hardening_worker.go:121-152 | any number of lives of the process, each ended by a crash, leaves tables and objects in a reachable state of the machine |
| HardeningService.HardeningService.Choose | internal/service/hardening_service.go:103-125 | the library row asked for, a strategy sent along, or the current default, which may promote a legacy row |
| HardeningService.HardeningService.Create | internal/service/hardening_service.go:74-143 | the new row is queued under the new number and keeps the library row asked for, else the strategy sent along, else the default; its rule text is the strategy's own without outer white space, or the configured rules if there is nothing else; each refusal, its error, and that it changes no row |
| HardeningService.NewRowKeepsChoice | internal/service/hardening_service.go:98-133 | a strategy can be chosen exactly when the row asked for exists, one was sent along, or the default can be read; the frozen row keeps it with its own rules trimmed |
| HardeningService.CreateRunsInThePipeline | internal/service/hardening_service.go:98-143 | what Create promises of the tables is a run of the machine |
| HardeningService.EditsNeverReachTasks | internal/service/hardening_service.go:98-133 | through any interleaving of library edits and pipeline actions a task keeps its snapshot, and its report shows the risk level of that snapshot |
| AppService.AppService.Upload | internal/service/app_service.go:55-184 | object and row appear together under a key of package, leading digest and file name, or the tables stay; typed-in names win over those of an .apk manifest; which uploads are refused with which error; when the save is what fails, what that leaves in the bucket, and when it restores it |
| AppService.AppService.Inspect | internal/service/app_service.go:77-137 | the refusals before the object store, each with the exact condition and in the order of the checks, and the package name of what passes |
| AppService.ExtensionEndsName | internal/service/app_service.go:77-82 | a lower-cased extension is the accepted one exactly when the name ends in a dot and its letters, in any case |
| AppService.AppService.Delete | internal/service/app_service.go:198-239 | removes the row, then tries the object once; refused exactly for a missing app or an active task, and then changes nothing |
| AppService.DeleteRunsInThePipeline | internal/service/app_service.go:226-237 | deleting an app's source leaves every artifact object alone |
| AppService.UploadRunsInThePipeline | internal/service/app_service.go:144-180 | a successful upload is two calls of the machine |
| AppService.DeleteSparesOthersIff | internal/service/app_service.go:237 | the sources of the other apps survive a delete if and only if none shares its key |
| AppService.SharedSourceIsLost | internal/service/app_service.go:226-237 | a history of two uploads of one file and a delete, after which the remaining app has no source |
| AppService.FailedSaveSparesOthersIff | internal/service/app_service.go:175-179 | the sources survive a failed save if and only if its undo fails too or no app has that key |
| AppService.SecondUploadTakesTheSource | internal/service/app_service.go:175-179 | after any run, uploading a file and then the same file with a failing save takes the first app's source |
| AppService.AnUploadThatTakes | internal/service/app_service.go:81-146 | an accepted upload of that kind exists |
| AppService.SourceKeyInjective | internal/service/app_service.go:144 | source keys coincide if and only if package, leading digest and file name do |
| StrategyLibrary.StrategyService.GetCurrent | internal/service/strategy_service.go:107-126 | the default row, a promoted legacy row, or the built-in template |
| StrategyLibrary.StrategyService.SaveCurrent | internal/service/strategy_service.go:132-180 | updates the default row under its id and creator, or inserts it; succeeds exactly on admissible fields when the write does not fail, and changes nothing otherwise |
| StrategyLibrary.StrategyService.Create | internal/service/strategy_service.go:197-218 | inserts a regular row with trimmed name and description; succeeds exactly on a non-blank free name and admissible fields when the write does not fail, and changes nothing otherwise |
| StrategyLibrary.StrategyService.Update | internal/service/strategy_service.go:220-259 | rewrites a regular row field by field, under the same conditions, its own name not counting as taken; a default row counts as not found |
| StrategyLibrary.StrategyService.Delete | internal/service/strategy_service.go:261-277 | removes exactly a regular row; refuses the default |
| StrategyLibrary.StrategyService.ResolveForHardening | internal/service/strategy_service.go:279-300 | content and name of a row, or of the current default for id 0 |
| StrategyLibrary.FirstRow | internal/repository/strategy_repository.go:23-29 | the first row, or first default row, by id |
| StrategyLibrary.LibraryStaysOk | internal/repository/strategy_repository.go:31-136 | after any calls from an empty table there is at most one default row, and regular names are trimmed, non-empty and pairwise distinct |
| StrategyLibrary.StoredFieldsAreOk | internal/service/strategy_service.go:320-334 | after any calls from an empty table every stored row has an admissible dex level, shell, strength and signature policy |
| StrategyLibrary.FieldsAreChecked | internal/service/strategy_service.go:320-334 | fields pass exactly when all four are admissible, and the error names the first that is not |
| StrategyLibrary.PayloadIsChecked | internal/service/strategy_service.go:302-318 | a payload passes exactly with a non-blank name that no other regular row has and admissible fields; the error names the first condition that fails |
| StrategyLibrary.SaveCurrentMeans | internal/service/strategy_service.go:132-180 | with a fault in the fields the table stays and the error names the first; otherwise the one default row is rewritten under its id and creator, or inserted |
| StrategyLibrary.GetCurrentMeans | internal/service/strategy_service.go:107-126 | the default row as it is; without one the row of lowest id becomes the default under the fixed name; in an empty table the template, which is not stored |
| StrategyLibrary.NamedCallsMean | internal/service/strategy_service.go:197-259 | the row that Create and Update write: texts without their outer white space, the content as sent, creator and last editor |
| StrategyLibrary.NamedCallsRefuse | internal/service/strategy_service.go:197-259 | their errors in the order in which they are looked for, the table unchanged |
| StrategyLibrary.ResolvedMeans | internal/service/strategy_service.go:279-300 | what a task is frozen with: content and name of the row asked for, the default under its fixed name, or not found |
| StrategyLibrary.CallKeepsDefault | internal/service/strategy_service.go:220-277 | no call deletes or demotes a default row, and only SaveCurrent edits it |
| StrategyLibrary.DefaultKeepsItsId | internal/repository/strategy_repository.go:31-44 | over any calls the default keeps its id, and its content unless SaveCurrent is called |
| StrategyLibrary.SavedIsResolved | internal/service/strategy_service.go:279-300 | what SaveCurrent stored is what the next task without a strategy gets |
| StrategyLibrary.StoredIsResolved | internal/service/strategy_service.go:279-300 | what Create and Update stored is what a task that asks for the row gets, and no other row changed |
| StrategyRaces.CallIsBothHalves | internal/service/strategy_service.go:132-259 | lookup and validation followed at once by the write are the atomic call |
| StrategyRaces.LateWriteIff | internal/repository/strategy_repository.go:31-44 | a late write keeps one default and distinct names if and only if what it was decided on still holds when it lands |
| StrategyRaces.InterleavingKeepsOrderIff | internal/repository/strategy_repository.go:31-136 | an interleaving of lookups, writes and deletes keeps them throughout if and only if no write lands that is no longer free to |
| StrategyRaces.TwoCreatesClash | internal/service/strategy_service.go:197-218 | two creates of any valid name that both check before either inserts break it |
| StrategyRaces.TwoFirstSavesClash | internal/repository/strategy_repository.go:31-44 | two first saves of any valid content that both look before either inserts break it |
| Strategy.TrimFixesExactlyUntrimmed | internal/service/strategy_service.go:302-318 | trimming leaves exactly the strings alone that neither start nor end with white space |
| Strategy.MiddleIsUnique | internal/service/strategy_service.go:302-318 | a string has only one part without white space at its ends and with nothing but white space around it, and that part is empty exactly for blank strings; trimming yields it |
| Strategy.NormalizeVmpRules | internal/service/hardening_command.go:52-58 | blank rules give way to the fallback as it is; any other text keeps what is between its outer white space |
| Strategy.SwitchesBehindFlags | internal/service/hardening_command.go:60-87 | which switches of a strategy turn on which protection, hook detection through any of three and VMP through either of two, and the signature policy that applies |
| Strategy.RiskOfSwitches | internal/service/hardening_report.go:58-163 | the score and the risk level straight from the switches: what each earns, and the bounds of the levels |
| Strategy.MoreProtectionNeverRaisesRisk | internal/service/hardening_report.go:131-163 | stronger effective flags never raise the score or the risk level, and scores stay within 5 and 100 |
| ObjectKeys.SanitizedIsSafe | internal/worker/hardening_worker.go:367-380 | for every string the sanitizer's output is non-empty and has no slash, backslash or double dot |
| ObjectKeys.SanitizeFixesExactlyUnsafe | internal/worker/hardening_worker.go:372-380 | the sanitizer leaves exactly the safe strings alone |
| ObjectKeys.SanitizeIdempotent | internal/worker/hardening_worker.go:372-380 | sanitizing twice is sanitizing once |
| ObjectKeys.SanitizeIs | internal/worker/hardening_worker.go:372-380 | what the sanitizer writes: separators become underscores one by one, then double dots do, and an empty name becomes one |
| ObjectKeys.ReplaceFirst | internal/worker/hardening_worker.go:372-380 | replacing goes from left to right: the first occurrence is replaced, what is before it stays, and the rest is treated alike |
| ObjectKeys.ExtFromLastDot | internal/worker/hardening_worker.go:175-178 | the extension of an artifact is the suffix from the last dot of its source's name |
| ObjectKeys.NoDotNoExt | internal/worker/hardening_worker.go:175-178 | a name without a dot has no extension, and its artifacts get ".apk" |
| ObjectKeys.ArtifactKeySegments | internal/worker/hardening_worker.go:363-365 | an artifact key splits back into segment, "hardening", task number and file |
| ObjectKeys.ArtifactKeyInjective | internal/worker/hardening_worker.go:363-365 | equal artifact keys have equal tasks, kinds and extensions |
| ObjectKeys.ArtifactKeyIsNoSourceKey | internal/service/app_service.go:144 | no artifact key is a source key, whose second-to-last segment is 12 hexadecimal digits |
| ObjectKeys.UploadedKeyIsSourceKey | internal/service/app_service.go:144 | every uploaded key is a source key, whatever the package name |
| ObjectKeys.GeneratedTaskNo | internal/service/hardening_service.go:264-266 | a generated task number has its prefix and no slash |
| ObjectKeys.TaskNosDiffer | internal/service/hardening_service.go:264-266 | two task numbers agree exactly when day and clock reading do |
| ObjectKeys.DecimalReads | internal/service/hardening_service.go:264-266 | the decimal rendering of a clock reading reads back as that reading |
| EngineCommand.BuildDptCommand | internal/service/hardening_command.go:89-136 | the head argument by argument: Java, the jar, the input after -f, the output after -o, no signing; then the options of the switches that are on, in order, the rule file last |
| EngineCommand.CommandText | internal/service/hardening_command.go:89-136 | the whole argument list in plain text, straight from paths and strategy switches |
| EngineCommand.DecodeInverts | internal/service/hardening_command.go:89-136 | reading tokens by position inverts the encoding, even when a path or policy spells a token |
| EngineCommand.CommandDecodes | internal/service/hardening_command.go:60-136 | the effective flags can be read back from the argument list |
| EngineCommand.CommandFaithful | internal/service/hardening_command.go:60-136 | for fixed paths two strategies give the same arguments if and only if their effective flags agree |
| Dashboard.CountByStatusSince | internal/repository/hardening_repository.go:351-364 | each status is counted as often as it occurs among the rows of the day |
| Dashboard.HourlyCountsSince | internal/repository/hardening_repository.go:366-380 | each of the 24 buckets counts its hour |
| Dashboard.GetOverview | internal/service/dashboard_service.go:87-186 | day total = success + failed + processing = rows of the day; the hourly trend adds up to the rows its query saw; processing is the day's active rows and never exceeds the active rows of the same query; the success rate |
| Dashboard.TrendAgreesIff | internal/service/dashboard_service.go:91-98 | the two queries agree if and only if no task of the day was created between them |
| Dashboard.TrendCanDisagree | internal/service/dashboard_service.go:91-98 | a history in which one task of the day is created between the two queries and the counts are 0 and 1 |
| Dashboard.ProcessingWithinQueueIff | internal/service/dashboard_service.go:91-106 | in every run the processing count of one query stays within the queue count of a later one if and only if no more of the counted tasks finish in between than other tasks are active at the second |
| Dashboard.ProcessingCanOutrunQueue | internal/service/dashboard_service.go:91-106 | a history in which the day's only task fails between the two queries, and they count 1 and 0 |
| Dashboard.QueueCountsProcessingApps | internal/repository/hardening_repository.go:406-415 | in every reachable state the queue count is the number of apps shown as processing |
| LogPolling.ScanLists | internal/repository/hardening_repository.go:507-533 | the query lists exactly the matching rows of its id range, each once, ascending |
| LogPolling.LogsAnswer | internal/repository/hardening_repository.go:507-533 | one answer: matching rows beyond the given id, each once, ascending, at most as many as asked for or 200 for a limit out of range; and if one is missing, that many came and all before it |
| LogPolling.PollingLosesNothing | internal/repository/hardening_repository.go:507-533 | with rows coming under any ids between polls and any limits, the client holds exactly the matching logs up to the last id it saw if and only if no matching row ever came at or below the cursor |
| LogPolling.IdsInOrderSuffice | internal/repository/hardening_repository.go:503-505 | ids that never come below the sequence value of the poll before are never late |
| LogPolling.EmptyMeansDone | internal/repository/hardening_repository.go:507-533 | a non-zero limit comes back empty exactly when everything was delivered |
| LogPolling.PollingFinishes | internal/repository/hardening_repository.go:507-533 | on a fixed log polling delivers everything, at least one row per poll |
| LogPolling.DefaultPollsDeliver | internal/repository/hardening_repository.go:518-528 | with limits below 0 or above 500 a client has exactly the first 200 rows of a fixed log for each of its polls |
| LogPolling.LateRowIsNeverSeen | internal/repository/hardening_repository.go:510-513 | a matching row that comes at or below the cursor stays in the table, matches, and reaches the client in no later poll |
| LogPolling.TwoPollsLoseARow | internal/worker/engine.go:49-53 | two polls between which the row with the lower id comes, after which the client has only the higher one |
| Pages.JoinAddsNoRows | internal/repository/hardening_repository.go:288-304 | the left join to apps yields every task exactly once |
| Pages.FilteredSelects | internal/repository/hardening_repository.go:292-304 | filtering keeps exactly the rows that pass, each once |
| Pages.ListSelects | internal/repository/hardening_repository.go:288-304 | the list selects exactly the tasks with the status and app asked for, and with the search text in their number or in the name or package of their app |
| Pages.OrderIsUnique | internal/repository/hardening_repository.go:320-325 | creation time and id descending determine one order, so queries for different pages cut the same list |
| Pages.PagesPartitionTheList | internal/repository/hardening_repository.go:306-327 | enough pages put together are the whole filtered list, newest first, without loss or repeat |
| Pages.BeyondTheLastPage | internal/repository/hardening_repository.go:311-325 | a page is empty exactly when its offset reaches the total, and holds as many rows as asked for, or 10, as long as there are that many |
| PagesByTime.OrderByTimeIsUniqueIff | internal/repository/app_repository.go:69-73 | every query ordered by creation time alone returns the same order if and only if creation times are pairwise distinct |
| PagesByTime.PagesByTimePartitionIff | internal/repository/app_repository.go:58-73 | pages from separate queries always hold every row exactly once if and only if no page ends between two rows with the same creation time |
| PagesByTime.TieRepeatsRow | internal/repository/strategy_repository.go:61-76 | wherever a page does end in a tie there are answers that show one row twice and another never |

## Left out

- Database calls that take effect and still report an error: an error means no effect here, as the worker itself assumes at `internal/worker/hardening_worker.go:102-108`. Uploads and deletes of objects that do so are modelled.
- Dashboard.GetOverview: the average duration, the recent tasks and the risk ranking are not part of it, and the success rate is a real number, which the source's float64 meets up to rounding.
- Errors of reading queries in the services (lookups before a write, the re-read after a create): they change nothing and only turn an answer into an error.
- Crashes inside a method of the worker class: the class can crash between methods only; a crash at any call is an action of the state machine, where every prefix of a run is a run.
- Waiting for row locks: the worker's transactions are not made to wait for an app's row lock in the machine, so it allows more interleavings than the database does.
- StartStep is one action with the lookup before it, and its separate SELECT of earlier steps is part of the same transaction.
- Source objects: in the machine any source key may appear or vanish at any time, which covers uploads, deletes and their failures; that every app's source object exists is not a property of this code.
- The two SELECTs in the first half of a strategy call see one table; so do the lookup and the promotion of a legacy row.
- AppRepository.UpdateStatus has no caller in production code.
- Log rows, audit records, request logs, timestamps other than the creation order, engine output lines, checklist texts, dimension percentages, labels, hash contents.
- The engine process: a run succeeds with or without each output file, or fails; also work directories, file reading and hashing, time-outs and cancellation, which end in the same error branches.
- ILIKE patterns are an arbitrary relation between strings; what the app, user and strategy lists filter by.
- File names with slashes: the multipart reader of Go strips directories before the service sees the name.
- Lower-casing of letters other than those that can spell an accepted extension.
- HTTP handlers, router, authentication, configuration, and the internals of GORM, Postgres and MinIO.
