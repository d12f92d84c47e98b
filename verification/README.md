# Maintenance tasks, verified

A Dafny model of Archcare, a maintenance assistant for Arch Linux, with proofs about it. Archcare
runs tasks that can break a machine: it upgrades packages, rewrites the mirrorlist, and keeps a
schedule that decides what runs unattended. The model covers the code behind those promises:

- **Task runs.** `BaseTask.run` as a template over five hooks, `SystemUpdateTask` and
  `MirrorlistUpdateTask` on top of it, and the `RichProgress` display they share with every prompt.
  Each external call (subprocess, file, clock) gets its reply from an unconstrained record, so the
  theorems quantify over every pattern of success, failure and exception.
- **Schedules.** `AppState`, `TaskScheduler` and `TaskExecutor` as a state machine over unbounded
  histories of triggers: forced or not, headless or interactive, enabled or disabled, any outcome.
- **The maintenance check** that sorts overdue tasks into severity lists.
- **Text and trees.** The in-place patching of nested configuration tables, the parser of pending
  updates, the release version converter, and the recogniser of systemd unit names.

Objects that the program updates in place are classes here, with methods proved against
specification functions; the theorems are about those functions. A whole system-update run is
specified by scripts, flat lists of calls (`UpdateScript.dfy`): a run follows its script up to the
first reply that stops it, and the world it leaves is the replay of its log.
`SystemUpdate.SystemUpdateTask.Run` proves that the task, with its early returns, nested brackets
and `try`/`except`/`finally`, does exactly that; `UpdateProperties.dfy` is about the logs, and `UpdateOutcome.dfy` gives the
result and the world of every run as tables over the replies, without the scripts.

| files | about |
|---|---|
| `Progress`, `BaseTask` | the display and the template |
| `UpdateScript`, `SystemUpdate`, `UpdateProperties`, `UpdateOutcome` | the system update |
| `MirrorlistFile`, `MirrorlistUpdate`, `MirrorlistProperties`, `MirrorlistOutcome` | the mirrorlist update |
| `Models`, `StableSort`, `Scheduler`, `Executor`, `TriggerOutcome`, `History` | state, schedule, histories |
| `UpdateTrigger`, `UpdateSchedule`, `NewsHistory` | system updates under the executor, and their histories |
| `MaintenanceCheck` | the maintenance check |
| `PatchDocument`, `Text`, `PendingUpdates`, `VersionConverter`, `UnitName` | trees and text |

`dafny verify dfyconfig.toml` checks the whole project.

## Where the code and its own documentation differ

The model follows the code. These differences are theorems:

- `SystemUpdateTask.rollback` is documented to run exactly when `pacman -Syu` fails
  (`src/archcare/tasks/system_update.py:594-595`). It runs on any exception after the backup, also
  after a successful upgrade: `UpdateProperties.RescueIff`, `RollbackAfterSuccessfulPacman`.
- The executor notes that a disabled task counts as overdue once enabled again
  (`src/archcare/core/executor.py:371-372`). The recorded skip moves the last run, so it becomes due
  one frequency after the skip: `History.EnabledAgainRunsIff` for every history,
  `EnabledAgainIsNotOverdue` at one input.
- A skip is said not to shift the schedule (`src/archcare/core/executor.py:352-356`). That needs a
  stored due date; without one every recorded skip slides the schedule, and a task whose first run
  failed can be kept from running for ever: `History.FirstFailureStarvesIff` says when,
  `StarvedForEver` is a weekly task under a daily timer. See also `BlockedRunSlidesWithoutDueDate`.
- The news prompt is said to be recorded as soon as it is shown
  (`src/archcare/tasks/system_update.py:245-248`). It is recorded once answered:
  `NewsHistory.UnansweredPromptIsForgotten`, and at one input `UpdateProperties.AbortedPromptIsAskedAgain`.
- The scheduler's "upcoming" is documented as the next 7 days (`src/archcare/core/scheduler.py:253-256`).
  It compares whole days, so it reaches to just under 8: `Scheduler.UpcomingIsWeekIff`,
  `EighthDayIsCounted`.
- A mirrorlist task built with a backup path, as its constructor allows, copies that backup over the
  mirrorlist when the sudo prompt is declined: `MirrorlistProperties.KeepsOriginalIff`.
- The phase offsets of the version converter are said to leave room for 999 pre-releases
  (`scripts/version_converter.py:33`). There is room up to 1999: `VersionConverter.OrderEmbeddingIff`.
- Post-releases are said to rank above the stable release (`scripts/version_converter.py:41`). The one
  of a pre-release does too, though it comes before: `VersionConverter.PostWins`, `PostOfAlphaCollides`.
- The unit-name pattern is anchored with `$`, which also matches before a final newline, so
  `"sshd\n.service"` is accepted: `UnitName.NewlineAccepted`.

## Model

| member | source | states |
|---|---|---|
| `Progress.RichProgress.Start` | src/archcare/cli/progress.py:64-76 | starts the render and gives the bar a fresh row; nothing else changes |
| `Progress.RichProgress.PauseEnter` | src/archcare/cli/progress.py:78-100 | entering a pause stops the render and keeps bar and rows |
| `Progress.RichProgress.PauseExit` | src/archcare/cli/progress.py:78-100 | leaving a pause starts the render, even if it was not running before |
| `Progress.RichProgress.Advance` | src/archcare/cli/progress.py:102-111 | moves the bar's count by one, and does nothing without a bar |
| `Progress.RichProgress.SpinnerEnter` | src/archcare/cli/progress.py:130-136 | starts the render, adds a row of its own, remembers whether the bar was showing |
| `Progress.RichProgress.SpinnerExit` | src/archcare/cli/progress.py:136-140 | removes exactly its own row; stops the render iff the bar was not showing at entry |
| `Progress.RichProgress.Stop` | src/archcare/cli/progress.py:142-150 | stops the render and forgets the bar |
| `Progress.BarSurvives` | src/archcare/cli/progress.py:114-140 | for every nesting of pauses, spinners, prompts and exceptions under a showing bar: the bar is showing afterwards, and the rows are the ones found before |
| `Progress.ColdSpinnerStops` | src/archcare/cli/progress.py:133-140 | a spinner that did not find the bar showing stops the render on exit; with no bar, a nested one stops its parent's render too |
| `Progress.GuardedPromptsAreClean` | src/archcare/cli/progress.py:78-100 | code whose prompts all sit directly in a pause never prompts under a live render, from any display and with any exceptions |
| `BaseTask.BaseTask.Run` | src/archcare/core/base_task.py:283-348 | one result or, only if logging setup raises, an exception; the log of hooks and the result are those of the reference; whatever bar, rows and render the hooks leave, the display ends stopped without a bar |
| `BaseTask.BaseTask.Attempt` | src/archcare/core/base_task.py:290-329 | the try block: reaches exactly the hooks the reference says, and raises iff a reached hook raised |
| `BaseTask.EachHookAtMostOnce` | src/archcare/core/base_task.py:289-348 | every hook is entered once iff reached, never twice; the display is closed exactly once, last |
| `BaseTask.HookDiscipline` | src/archcare/core/base_task.py:289-342 | work only behind both gates, follow-up only after a returned result, rollback iff a reached hook raised, then FAILURE with that hook's error whatever the rollback does; a failed pre-check is DEPENDENCY_FAILED, a skip carries the gate's own reason, and otherwise the follow-up's result is the run's |
| `BaseTask.HooksInOrder` | src/archcare/core/base_task.py:289-348 | the hooks come in the template's order, each with its own calls right behind it |
| `SystemUpdate.SystemUpdateTask.PreCheck` | src/archcare/tasks/system_update.py:258-320 | the four probes in order, stopping at the first that fails |
| `SystemUpdate.SystemUpdateTask.PendingRepoUpdates` | src/archcare/tasks/system_update.py:168-188 | queries once, under a spinner, and caches; a raising query caches nothing and escapes |
| `SystemUpdate.SystemUpdateTask.MirrorlistGate` | src/archcare/tasks/system_update.py:322-341 | blocks iff the mirrorlist is more than the configured whole days old |
| `SystemUpdate.SystemUpdateTask.HandleUnreadNews` | src/archcare/tasks/system_update.py:190-256 | asks iff there is unread news outside the cooldown; records the time on either answer, not when the prompt raises |
| `SystemUpdate.SystemUpdateTask.ShouldRun` | src/archcare/tasks/system_update.py:364-422 | the four gates in order: same calls, same verdict, same cached list and recorded prompt as the gate script |
| `SystemUpdate.SystemUpdateTask.BackUp` | src/archcare/tasks/system_update.py:483-489 | a backup OSError ends the work with a failure result before any transaction; any other exception escapes |
| `SystemUpdate.SystemUpdateTask.Transact` | src/archcare/tasks/system_update.py:491-532 | from pacman to the recovery record: same calls, same order, same ending as the script |
| `SystemUpdate.SystemUpdateTask.Execute` | src/archcare/tasks/system_update.py:465-544 | every call of the upgrade in order with the render's state, the reply, the database, backup and snapshot id it leaves |
| `SystemUpdate.SystemUpdateTask.PrunePackageCache` | src/archcare/tasks/system_update.py:657-673 | stamps the reclaimed bytes on a result with details; a raising paccache leaves the result as it was |
| `SystemUpdate.SystemUpdateTask.Announce` | src/archcare/tasks/system_update.py:683-704 | calls the notifier iff there is one; its exception is dropped, never raised |
| `SystemUpdate.SystemUpdateTask.PostExecute` | src/archcare/tasks/system_update.py:586-588 | prunes on SUCCESS only, announces always, never raises |
| `SystemUpdate.SystemUpdateTask.Rollback` | src/archcare/tasks/system_update.py:616-631 | restores iff the task holds a backup; merges it over the live database; never raises |
| `SystemUpdate.SystemUpdateTask.Run` | src/archcare/core/base_task.py:283-348 | a whole run: log, result and world are those of the reference for every reply of the outside world, and the render is stopped at the end |
| `UpdateScript.UpgradeReplies` | src/archcare/tasks/system_update.py:465-544 | an upgrade that reached its end had every reply it needs: backup copied, pacman succeeded, nothing raised |
| `UpdateProperties.PacmanOnlyBehindBackup` | src/archcare/tasks/system_update.py:477-499 | in every run, when `pacman -Syu` starts, the backup exists, holds the pre-run sync database, and that database is still untouched |
| `UpdateProperties.PacmanStartsIff` | src/archcare/tasks/system_update.py:465-499 | pacman is started iff the gates pass, both queries and the first manifest return, and the backup copy succeeds |
| `UpdateProperties.EnteredIff` | src/archcare/tasks/system_update.py:364-422 | the work is entered iff the probes pass, the mirrorlist is fresh, enough updates are pending, no reboot is pending, and the news gate lets it through |
| `UpdateProperties.RestoreIff` | src/archcare/tasks/system_update.py:616-625 | a restore is attempted iff an exception escapes and there is a backup; for a task built without one, iff an exception escapes after this run's backup was taken |
| `UpdateProperties.RescueIff` | src/archcare/tasks/system_update.py:491-532 | after the backup, the run is rescued iff pacman failed or any later step raised; a failing AUR build does not rescue |
| `UpdateProperties.RollbackAfterSuccessfulPacman` | src/archcare/tasks/system_update.py:590-631 | a run in which pacman succeeded and the record write failed is rolled back, against the docstring at lines 594-595 |
| `UpdateProperties.BackupAtRescue` | src/archcare/tasks/system_update.py:483-489 | the rescue finds the pre-run database in every secured run, and otherwise what the task was built with |
| `UpdateProperties.FinalWorld` | src/archcare/core/base_task.py:331-342 | the world a run leaves: the rescue's restore is its last write |
| `UpdateProperties.RescueRestores` | src/archcare/utils/pacman.py:393-401 | a full restore gives every pre-run file its old content and keeps new files; after a broken one no file is lost, and each is as it was left or holds what the copy put there |
| `UpdateProperties.NoPacmanNoChange` | src/archcare/tasks/system_update.py:465-499 | a run that never starts pacman leaves the live database as it was, unless the task was built with an old backup and an exception restores that one |
| `UpdateProperties.PromptsAreCleanIff` | src/archcare/tasks/system_update.py:467-514 | in every run the render is stopped at every call that may ask the user something, unless the news question is asked while a render the run found is still going; from a stopped render it always is |
| `UpdateProperties.OutcomeTable` | src/archcare/tasks/system_update.py:534-544 | the status of every run: SUCCESS or PARTIAL by the AUR half for completed ones, SKIPPED for blocked ones, else FAILURE |
| `UpdateProperties.PrunedIffSuccess` | src/archcare/tasks/system_update.py:586-588 | the cache is pruned iff the final result is SUCCESS |
| `UpdateProperties.FollowUpIsBestEffort` | src/archcare/tasks/system_update.py:657-704 | whatever paccache and the notifier reply: same log, same status, same error |
| `UpdateProperties.AurIsReportedWhole` | src/archcare/tasks/system_update.py:707-755 | every pending AUR package is reported on exactly one side; removed packages are the manifest difference |
| `UpdateProperties.NewsPrompt` | src/archcare/tasks/system_update.py:222-256 | who is asked, exactly; the recorded time moves only on an answer |
| `UpdateProperties.AbortedPromptIsAskedAgain` | src/archcare/tasks/system_update.py:243-248 | a concrete run asks, records no time, and the next run at the same moment asks again |
| `UpdateOutcome.EveryResult` | src/archcare/tasks/system_update.py:258-544 | the whole result of every run, by one table over the replies: status, skip reason, the first error in order, and every field of the details |
| `UpdateOutcome.SkipReasonIff` | src/archcare/tasks/system_update.py:366-422 | which of the five skip reasons a run has, each iff its own condition on the replies; none unless it is skipped |
| `UpdateOutcome.EveryWorld` | src/archcare/tasks/system_update.py:465-631 | the database, the backup and the prompt time that every run leaves |
| `UpdateOutcome.DatabaseLeftByWork` | src/archcare/tasks/system_update.py:491-515 | before any rescue the database is what the last package manager to start left, and untouched if none started |
| `UpdateOutcome.AnnouncedIff` | src/archcare/tasks/system_update.py:683-704 | the notifier is called iff there is one and the work returned a result |
| `UpdateOutcome.ProbesInOrder` | src/archcare/tasks/system_update.py:258-320 | pacman, paru, checkupdates, terminal, up to the first that is missing |
| `Models.EnabledTasksAreFound` | src/archcare/config/models.py:223-256 | the enabled tasks are exactly the enabled entries, and each is found again by its name |
| `Models.EnabledInOrder` | src/archcare/config/models.py:223-256 | enabled tasks keep the order of the configuration |
| `Models.AppState.GetTaskState` | src/archcare/config/models.py:1523-1545 | creates a fresh entry on first access, returns the same object afterwards, changes no other entry |
| `Models.AppState.SetTaskNewsPrompt` | src/archcare/config/models.py:1547-1556 | moves only that task's prompt time |
| `Models.AppState.UpdateTaskState` | src/archcare/config/models.py:1558-1601 | every outcome moves the last run and adds one to the count; the prompt time and every other task stay |
| `Scheduler.InfoMeaning` | src/archcare/core/scheduler.py:154-189 | due iff the effective date has come; days overdue and days left are the whole days around it; the reason of every answer, due or not |
| `Scheduler.InfosInOrder` | src/archcare/core/scheduler.py:214-240 | one answer per task, in order, each from its own record and clock reading |
| `Scheduler.TouchingIsInvisible` | src/archcare/config/models.py:1543-1545 | a lazily inserted entry changes no schedule answer |
| `Scheduler.TaskScheduler.GetScheduleInfo` | src/archcare/core/scheduler.py:134-189 | the answer from the record alone; an unknown name raises and inserts nothing |
| `Scheduler.TaskScheduler.GetDueTasks` | src/archcare/core/scheduler.py:191-212 | the due answers of the enabled tasks, each at its own clock reading, stably sorted; the state gains the looked-up entries only |
| `Scheduler.TaskScheduler.GetAllScheduleInfo` | src/archcare/core/scheduler.py:214-240 | the answers of all enabled tasks, each at its own clock reading, stably sorted by due and date |
| `Scheduler.TaskScheduler.GetMaintenanceSummary` | src/archcare/core/scheduler.py:242-278 | the four counts of the full list, the upcoming one at a further clock reading per entry; the state gains the looked-up entries only |
| `Scheduler.DueListIsDuePart` | src/archcare/core/scheduler.py:202-240 | as a multiset, the due list is the due part of the full list |
| `Scheduler.DueListOrder` | src/archcare/core/scheduler.py:209-212 | most overdue first, equally overdue tasks in configuration order |
| `Scheduler.FullListOrder` | src/archcare/core/scheduler.py:232-240 | due before not due, each by date, never-run tasks after all dated due ones |
| `Scheduler.SummaryBounds` | src/archcare/core/scheduler.py:258-278 | overdue <= due, due + upcoming <= total, independent of the list's order |
| `Scheduler.CountsMean` | src/archcare/core/scheduler.py:258-278 | what each of the four counts counts |
| `Scheduler.UpcomingIsWeekIff` | src/archcare/core/scheduler.py:264-272 | the upcoming count is at least the documented one of the next seven days, and equals it iff no task falls due on the eighth day |
| `Scheduler.EighthDayIsCounted` | src/archcare/core/scheduler.py:269-272 | a task due in seven and a half days is counted as upcoming |
| `StableSort.SortIsStable` | src/archcare/core/scheduler.py:209-238 | the sort rearranges, orders, and keeps the order inside every key |
| `StableSort.StableSortIsUnique` | src/archcare/core/scheduler.py:209-238 | those three properties determine the sorted list |
| `Executor.TaskExecutor.ExecuteTask` | src/archcare/core/executor.py:196-219 | which triggers run, refuse or raise, from the schedule and the trigger alone, with raising questions and logging setups; and the exact new state, for a run that looks up any set of other tasks |
| `Executor.TaskExecutor.HandleDisabledTask` | src/archcare/core/executor.py:221-262 | lets a trigger through iff the task is enabled or the user says yes; raises iff the task is unregistered or the question raises |
| `Executor.TaskExecutor.HandleDueTask` | src/archcare/core/executor.py:285-314 | lets a trigger through iff the task is due or the user says yes; raises iff not due and unregistered, or the question raises; only the lazy insertion touches the state |
| `Executor.TaskExecutor.UpdateState` | src/archcare/core/executor.py:328-337 | the record after an outcome, with the due date computed from the old one |
| `Executor.TaskExecutor.CalculateNextDue` | src/archcare/core/executor.py:366-383 | shifted by completing outcomes, dropped by a disabling skip, kept by every other one |
| `TriggerOutcome.RunsIff` | src/archcare/core/executor.py:196-312 | a trigger runs its task iff the task is known and it is forced, or each of the two objections is absent or overruled |
| `TriggerOutcome.RefusalLeaves` | src/archcare/core/executor.py:242-312 | a declined question records USER_CANCELLED and keeps the date, in both cases; a headless refusal records DISABLED and drops the date, or NOT_DUE and keeps it |
| `TriggerOutcome.RunLeaves` | src/archcare/core/executor.py:348-383 | the record after a run: its status, reason and error, and the date by status and reason |
| `TriggerOutcome.RaisesIff` | src/archcare/core/executor.py:196-312 | nothing is recorded iff the task is unknown, a question that is put raises, or the run does |
| `TriggerOutcome.EveryTrigger` | src/archcare/core/executor.py:196-219 | these are all the ways to record an outcome |
| `History.RecordStep` | src/archcare/core/executor.py:176-219 | in any history a task's record moves only at its own recorded outcomes, and every field of it as the outcome says |
| `History.OthersUntouched` | src/archcare/config/models.py:1594-1601 | a trigger of one task leaves every other record alone |
| `History.HeadlessRunsOnlyWhenDue` | src/archcare/core/executor.py:285-305 | an unforced headless trigger runs only an enabled, due task |
| `History.CompletedRunsAreSpaced` | src/archcare/core/executor.py:366-383 | after a completing run no later unforced headless trigger runs the task for one frequency, whatever happens in between |
| `History.BlockedRunsKeepDueDate` | src/archcare/core/executor.py:366-380 | any number of failed or blocked runs keep a stored due date, so a due task stays due |
| `History.HeadlessRunsFromDueDate` | src/archcare/core/executor.py:285-305 | with a stored date, a headless trigger behind any blocked runs executes iff the date has come |
| `History.BlockedRunSlidesWithoutDueDate` | src/archcare/config/models.py:1594-1601 | with none stored, every blocked run moves the effective date to itself plus one frequency |
| `History.DisabledSkipPostpones` | src/archcare/core/executor.py:370-373 | after a disabling skip the task is due one frequency later, not at once as the note says |
| `History.EnabledAgainRunsIff` | src/archcare/core/executor.py:370-373 | a task enabled again after a disabling skip runs headless iff one frequency has passed since the skip, behind any triggers that record nothing for it |
| `History.EnabledAgainIsNotOverdue` | src/archcare/core/executor.py:370-373 | a weekly task last run on day 0 and skipped as disabled on day 30 is refused on day 31 |
| `History.FirstOutcomeDatesIff` | src/archcare/core/executor.py:366-383 | the first recorded outcome stores a due date iff it completes, so a first failure leaves the task run and undated |
| `History.UndatedRunsIff` | src/archcare/core/scheduler.py:156-162 | an undated task behind refusals is run by its timer iff the trigger comes a full frequency after the last record |
| `History.FirstFailureStarvesIff` | src/archcare/core/executor.py:378-380 | so all triggers of its timer are refused iff each comes less than one frequency after the one before |
| `History.StarvedForEver` | src/archcare/core/executor.py:374-380 | a weekly task whose first run fails is turned away by its daily timer for any number of days |
| `History.ReachableStates` | src/archcare/core/executor.py:328-383 | from an empty state: run count is the number of recorded outcomes, and any stored date is at most one frequency past the last run |
| `History.ReportedDateIsBounded` | src/archcare/core/scheduler.py:156-169 | so is the date the scheduler reports |
| `UpdateTrigger.UpdateTrigger.Execute` | src/archcare/core/executor.py:196-219 | a trigger of the system update, with the real run inside: the new state, outcome and log are those of the trigger whose outcome and prompt time the run works out |
| `UpdateSchedule.UpdateLeaves` | src/archcare/core/executor.py:316-383 | the real run's status, reason and error enter the book; its date moves iff packages were upgraded or there were too few, worked out from the replies |
| `NewsHistory.PromptStep` | src/archcare/tasks/system_update.py:222-225 | in any history the recorded prompt time moves only when an update that runs gets its question answered |
| `NewsHistory.PromptsAreSpaced` | src/archcare/tasks/system_update.py:190-256 | over whole histories, a question that was answered, accepted or declined, keeps every later update from asking for its cooldown |
| `NewsHistory.UnansweredPromptIsForgotten` | src/archcare/tasks/system_update.py:243-248 | a prompt that raises is shown and leaves the recorded time as it was |
| `MaintenanceCheck.MaintenanceCheckTask.CategorizeIssues` | src/archcare/tasks/maintenance_check.py:232-254 | each list grows by exactly the issues of its severity, in order |
| `MaintenanceCheck.MaintenanceCheckTask.CheckTask` | src/archcare/tasks/maintenance_check.py:256-323 | the findings of a task, as conditions on its record and the clock; only the lazy insertion touches the state |
| `MaintenanceCheck.MaintenanceCheckTask.Inspect` | src/archcare/tasks/maintenance_check.py:287-323 | the checks in order: never run, overdue manual, failed and due, broken timer |
| `MaintenanceCheck.MaintenanceCheckTask.Execute` | src/archcare/tasks/maintenance_check.py:181-230 | files everything found over the enabled tasks except the check itself, and reports those lists, their lengths and the number of enabled tasks; the state gains the missing entries of exactly those tasks |
| `MaintenanceCheck.MaintenanceCheckTask.SendNotification` | src/archcare/tasks/maintenance_check.py:627-662 | fires iff there are issues, a manager, and the worst severity reaches the configured one; raises iff there are issues in no list |
| `MaintenanceCheck.MaintenanceCheckTask.PostExecute` | src/archcare/tasks/maintenance_check.py:590-601 | notifies as above when notifications are on, then saves the report when the output mode asks for it; raises iff the details are missing or one of the two raises, and a raising notification leaves no report |
| `MaintenanceCheck.ListsPartitionFindings` | src/archcare/tasks/maintenance_check.py:247-254 | the three lists together are a rearrangement of everything found, each issue in its own list |
| `MaintenanceCheck.AtMostTwoPerTask` | src/archcare/tasks/maintenance_check.py:287-323 | at most two issues per task, two iff failed-and-due meets a broken timer |
| `MaintenanceCheck.FindingsByCase` | src/archcare/tasks/maintenance_check.py:287-470 | every issue about a task with all its fields, case by case from its record and the clock |
| `MaintenanceCheck.FoundInOrder` | src/archcare/tasks/maintenance_check.py:181-190 | the tasks are checked in order, each on its own record, and the check itself is passed over |
| `MaintenanceCheck.ReportIsConsistent` | src/archcare/tasks/maintenance_check.py:192-230 | the details hold the three lists, the counts are their lengths, the status is that of the worst list, and the notifier's error is unreachable |
| `MaintenanceCheck.SeverityNeverFalls` | src/archcare/tasks/maintenance_check.py:355-356 | with the record fixed, a later clock never lowers a task's worst severity |
| `MaintenanceCheck.StatusNeverImproves` | src/archcare/tasks/maintenance_check.py:198-214 | nor does it improve the status of the whole check |
| `PatchDocument.TableNode.Patch` | src/archcare/config/loader.py:93-101 | patching in place, keys in any order, is the pure recursive merge |
| `PatchDocument.TableNode.PatchKey` | src/archcare/config/loader.py:93-101 | one key: a leaf is assigned, a table is merged into the table there or a new one |
| `PatchDocument.SaveTasks` | src/archcare/config/loader.py:228-235 | every task's data is merged into its own table, existing or new, and every other entry keeps its value |
| `PatchDocument.PathsAfterMerge` | src/archcare/config/loader.py:74-101 | outside the data every path keeps its value at every depth; at the data's leaves it has the data's |
| `PatchDocument.ReadBack` | src/archcare/config/loader.py:457-460 | reading back along the data's shape gives the data |
| `PatchDocument.NoChangeIff` | src/archcare/config/loader.py:76-80 | a patch changes nothing iff the document already reads back as the data |
| `PatchDocument.SecondPatchWinsIff` | src/archcare/config/loader.py:93-101 | on every document the second patch alone does the work of both, iff it writes over everything the first one writes |
| `PatchDocument.PatchesComposeIff` | src/archcare/config/loader.py:93-101 | patching twice is patching once with the merged data, on every document, iff no path is a leaf first and a table later |
| `MirrorlistFile.ValidateMirrorlist` | src/archcare/utils/mirrorlist.py:279-302 | valid iff there is a readable file with a server line, with its exact count; each other verdict iff its condition |
| `MirrorlistFile.GetMirrorlistInfo` | src/archcare/utils/mirrorlist.py:337-369 | count, protocols and time of the file; no file gives the empty info, an unreadable one raises |
| `MirrorlistFile.ProtocolIff` | src/archcare/utils/mirrorlist.py:349-358 | a mirror counts for https if it mentions that, else for http, else for rsync |
| `MirrorlistFile.BlankHasNoMirrors` | src/archcare/utils/mirrorlist.py:287-289 | the early refusal of blank files refuses nothing the count would accept |
| `MirrorlistFile.PrintedMirrorIff` | src/archcare/utils/mirrorlist.py:293-296 | a `Server = ` line is listed as itself iff its address is not empty and ends without whitespace |
| `MirrorlistFile.CommentListsNothing` | src/archcare/utils/mirrorlist.py:291-296 | a commented line is never counted |
| `MirrorlistFile.MirrorsOfTwo` | src/archcare/utils/mirrorlist.py:340-345 | mirrors are listed in file order, text by text |
| `MirrorlistUpdate.MirrorlistUpdateTask.PreCheck` | src/archcare/tasks/mirrorlist_update.py:119-142 | reflector first, then the file |
| `MirrorlistUpdate.MirrorlistUpdateTask.Execute` | src/archcare/tasks/mirrorlist_update.py:192-274 | the six steps up to the first that does not go through: calls, reply, file and backup |
| `MirrorlistUpdate.MirrorlistUpdateTask.PostExecute` | src/archcare/tasks/mirrorlist_update.py:297-316 | after a success, deletes exactly the stale backups; never raises |
| `MirrorlistUpdate.MirrorlistUpdateTask.DeleteFiles` | src/archcare/utils/mirrorlist.py:133-142 | no request for an empty list; otherwise one request for exactly these files |
| `MirrorlistUpdate.MirrorlistUpdateTask.Rollback` | src/archcare/tasks/mirrorlist_update.py:332-343 | copies the backup back iff there is one and it is found |
| `MirrorlistUpdate.MirrorlistUpdateTask.Run` | src/archcare/core/base_task.py:283-348 | a whole run: log, result and files are those of the reference for every behaviour of reflector |
| `MirrorlistProperties.OutcomeIff` | src/archcare/tasks/mirrorlist_update.py:192-274 | SUCCESS iff all six steps go through; SKIPPED iff reflector or the file is missing; never PARTIAL |
| `MirrorlistProperties.SuccessIsValid` | src/archcare/tasks/mirrorlist_update.py:250-274 | a success leaves a valid file with exactly the reported number of mirrors, and a backup of the old one; the two metadata blocks are those of the old and of the new file |
| `MirrorlistProperties.RestoreIff` | src/archcare/tasks/mirrorlist_update.py:332-343 | restored iff reflector ran, the run did not succeed and the backup is found |
| `MirrorlistProperties.OriginalKept` | src/archcare/tasks/mirrorlist_update.py:192-343 | without success the file is what it was, its time included, provided the rollback works when reflector ran |
| `MirrorlistProperties.KeepsOriginalIff` | src/archcare/tasks/mirrorlist_update.py:115-117 | that promise holds for every behaviour of the world iff the task is not built with a backup of another file |
| `MirrorlistProperties.SudoFirst` | src/archcare/tasks/mirrorlist_update.py:194-204 | no sudo call precedes `sudo -v`, and none is made unless it granted credentials |
| `MirrorlistProperties.OnlyReflectorIsLiveIff` | src/archcare/tasks/mirrorlist_update.py:233-234 | the render is live during the reflector call and no other, in particular at no sudo prompt, iff the run finds it stopped |
| `MirrorlistProperties.RetentionKeepsNewest` | src/archcare/tasks/mirrorlist_update.py:301-312 | of a listing, exactly the newest min(n, retention) files are not stale, and none of them is older than a stale one |
| `MirrorlistProperties.RetentionHolds` | src/archcare/tasks/mirrorlist_update.py:297-312 | when listing and deletion succeed, the backup directory holds exactly min(n, retention) files after the run, none older than a deleted one |
| `MirrorlistProperties.KeptFilesSurvive` | src/archcare/tasks/mirrorlist_update.py:297-316 | no backup goes without success; with it, none of the kept ones does, even when the deletion fails half way |
| `MirrorlistProperties.NewBackupMayGo` | src/archcare/tasks/mirrorlist_update.py:301-310 | if the backup just made is deleted, the retention is used up by files at least as new; and it is, if by strictly newer ones |
| `MirrorlistProperties.NewBackupStaysIff` | src/archcare/tasks/mirrorlist_update.py:301-310 | it stays, in whatever order the directory is listed, iff fewer of the older backups than the retention are at least as new |
| `MirrorlistProperties.TieGoes` | src/archcare/tasks/mirrorlist_update.py:301-312 | at equal times, with a retention of one, the file listed first goes |
| `MirrorlistProperties.RolledBackRunTies` | src/archcare/utils/mirrorlist.py:70-75 | such a tie is what a rolled-back run leads to, because copies keep the time |
| `MirrorlistProperties.DeletionIff` | src/archcare/utils/mirrorlist.py:133-142 | deletion is requested iff the run succeeded and the listing has stale files, and for exactly those |
| `MirrorlistProperties.ListingIff` | src/archcare/tasks/mirrorlist_update.py:297-302 | the backups are listed after every success and never otherwise |
| `MirrorlistProperties.ZeroRetentionKeepsAll` | src/archcare/tasks/mirrorlist_update.py:301-310 | a retention of 0 makes no file stale |
| `MirrorlistProperties.CleanUpNeverMatters` | src/archcare/tasks/mirrorlist_update.py:297-316 | nothing in the clean-up changes result, file or backup |
| `MirrorlistOutcome.EveryResult` | src/archcare/tasks/mirrorlist_update.py:119-274 | the whole result of every run, by one table over the replies: status, skip reason, the first error in order, and the details |
| `MirrorlistOutcome.EveryWorld` | src/archcare/tasks/mirrorlist_update.py:192-343 | the mirrorlist, the backup and the backup files that every run leaves |
| `PendingUpdates.ParsePendingUpdates` | src/archcare/utils/pacman.py:181-202 | the line loop gives the updates of the lines in order |
| `PendingUpdates.RoundTripIff` | src/archcare/utils/pacman.py:185-200 | printing then parsing gives the update back iff name and old version are fields, the old one is not the bare arrow, and the new one is not empty, stripped and on one line |
| `PendingUpdates.ReparsedIff` | src/archcare/utils/pacman.py:185-200 | anything ever parsed survives another round trip iff its old version is not the bare arrow |
| `PendingUpdates.NoArrowField` | src/archcare/utils/pacman.py:185-191 | an update with the bare arrow as old version is lost |
| `PendingUpdates.FieldCountIff` | src/archcare/utils/pacman.py:185-200 | a line with any number of fields in front of its arrow is an update iff there are exactly two |
| `PendingUpdates.NoiseChangesNothing` | src/archcare/utils/pacman.py:154-161 | updates come back whole and in order, whatever arrow-free lines lie between them |
| `PendingUpdates.ParseOfTwo` | src/archcare/utils/pacman.py:183-200 | two texts with a newline between them parse to the concatenation |
| `PendingUpdates.ReadManifestNames` | src/archcare/utils/pacman.py:311-318 | the first field of every line that has one |
| `PendingUpdates.DiffManifests` | src/archcare/utils/pacman.py:293-295 | names before, less names after |
| `PendingUpdates.ManifestDiff` | src/archcare/utils/pacman.py:258-264 | on printed manifests that is the packages that went, whatever the versions |
| `VersionConverter.Convert` | scripts/version_converter.py:46-81 | the converter with its padding loop |
| `VersionConverter.RefusedIff` | scripts/version_converter.py:55-57 | refused iff the text does not start with a digit |
| `VersionConverter.ConvertPrinted` | scripts/version_converter.py:55-81 | every printed version converts to three release numbers and its phase offset plus number |
| `VersionConverter.OrderEmbeddingIff` | scripts/version_converter.py:33-43 | the conversion keeps the PEP 440 order, up to final against post 0, on exactly the scopes with at most three release numbers and pre-release numbers below 2000 |
| `VersionConverter.PhasesCollide` | scripts/version_converter.py:33-39 | alpha 2000 is encoded like beta 0 |
| `VersionConverter.FourthNumberDropped` | scripts/version_converter.py:63 | a fourth release number is lost |
| `VersionConverter.PostWins` | scripts/version_converter.py:65-69 | a post-release number decides alone, whatever pre-release it follows |
| `VersionConverter.PostOfAlphaCollides` | scripts/version_converter.py:65-69 | the post-release 0 of an alpha is converted like the final release |
| `UnitName.AcceptedIff` | src/archcare/utils/system.py:786-802 | accepted iff short enough and the print of a unit whose parts may each end in one newline |
| `UnitName.GrammarIff` | src/archcare/utils/system.py:756-784 | accepted without a newline iff short enough and in the grammar of systemd.unit(5) |
| `UnitName.ReadingIsUnique` | src/archcare/utils/system.py:790-802 | an accepted name has only one reading |
| `UnitName.NewlineAccepted` | src/archcare/utils/system.py:56-59 | a name with a newline before its suffix is accepted |
| `UnitName.OneAtSign` | src/archcare/utils/system.py:795-800 | an accepted name has at most one at sign |
| `UnitName.SimpleNameIff` | src/archcare/utils/system.py:786-802 | which names without an at sign and a newline are accepted, spelled out in characters, suffixes and length |
| `UnitName.InstanceNameIff` | src/archcare/utils/system.py:786-802 | the same for names with an at sign |

## Left out

- `KeyboardInterrupt` and other exceptions outside `Exception`, which no handler of the template catches.
- Failures of logging, of `save_state` and of `chown`; loading and saving are the identity on the data.
- Message texts, presenters, the command line and the desktop notification itself.
- The content of the recovery record and of the maintenance report files, and the clean-up of old reports; writing one is a single reply that may raise.
- Backups taken twice within one second, whose directory or file names collide.
- Clock readings are whole microseconds; daylight saving, float rounding and overflow of `datetime` are not modelled. The factor 1.5 is compared as `2 * days > 3 * frequency`.
- Other processes changing the sync database, the mirrorlist or the state between two calls of a run.
- The label and the total of the progress bar's rows.
- `list.sort` is a specified stable sort, not the library's algorithm; reverse sorting is by the negated key.
- The system update holds its own entry of the state book; one that does not exist yet stands beside the book until its first prompt time enters it.
- A trigger that raises leaves no exception text beyond its reply; what the command line does with it is not modelled.
- `ensure_sudo_credentials` is one call in the mirrorlist log; for root it makes none and succeeds.
- The name pattern of backup files, and the contents of older backups.
- Whitespace is space, tab, carriage return and newline, and the newline is the only line break; other Unicode separators and digits are not modelled.
- Manifest differences are sets; the sorting of the names is not modelled.
- Versions with an epoch, a local part, or several suffixes other than one post-release behind a pre-release.
- TOML comments and formatting around patched values, and what `tomlkit` stores for a leaf.
- Health checks, failed-service filtering, the task registry, kernel detection, timers and units.
