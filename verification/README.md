# The GridWay Dispatch Manager, in Dafny

GridWay's daemon moves every job through twenty states under queued actions: requests of users, reports of the
Execution, Transfer and Request Managers, and the job's own state transitions. Each handler runs alone and edits shared
state: the job record, the used slots and running jobs of hosts, the running jobs of users, the task tables of job
arrays, and the queue itself, in which small heap cells carry job ids from one handler to the next. Several handlers
write the state without looking at it, and a hard kill gives back whatever the state says the job holds. Whether the
books stay right depends on what else is in the queue. This project models that system and proves when they do.

- `Jobs.dfy`, `Reactions.dfy`: the job record, the ledger (what a job holds on its present and its previous host), and
  for each action what its handler does to one job, with the per-job invariant of outstanding work.
- `LifeCycle.dfy`: the whole manager as a step system; other managers and the scheduler are steps that answer only what
  they were asked.
- `Conservation.dfy`, `Steps.dfy`: the accounts and the invariant, kept by every clean step, over whole runs.
- `Exactness.dfy`: the run assumptions are exact; a step keeps the host ledger if and only if it is clean.
- `Consequences.dfy`, `Accounts.dfy`, `EpilogPhase.dfy`, `Restarts.dfy`, `Sources.dfy`, `CellOwnership.dfy`,
  `ArrayTables.dfy`: what follows for hard kills, queued transitions, users, replies, the epilog phase, restart files,
  cells and job arrays.
- `Witness.dfy`: clean runs from the idle manager: a whole life of a job, and one run into each broken promise.
- `Dispatcher.dfy`, `Listener.dfy`: the manager as a class whose methods are the handlers, updating records and
  counters in place, each proved to do what the step system says; and the two threads around the scheduling flag.
- `TaskTables.dfy`, `ArrayPool.dfy`, `Allocation.dfy`: task tables and the cyclic slot search, as values and in memory,
  and why the pool's allocation is a step of the system.
- `ActionManager.dfy`, `Queues.dfy`, `Scheduling.dfy`: the action queue as a linked list with its loop, why it holds the
  queue of the step system, and the scheduling flag.
- `Dependencies.dfy`: job dependencies, as lists over runs and as a table beside the manager.
- `Transfers.dfy`, `Staging.dfy`: transfer lists, and the handlers that start transfers with the lists they build.
- `Client.dfy`, `Deadline.dfy`, `Numbers.dfy`: the client's array and wait operations, and the deadline format.

## Run assumptions

They are guards on the state a step meets, collected in `Conservation.Clean` (with `Tokens.CleanAct` and
`Conservation.CleanDispatch`); nothing is assumed about the length, order or contents of a run otherwise.

- No hold or kill meets a job between its dispatch and the queued PROLOG, and no stop or kill a job before its queued
  MIGR_CANCEL.
- No hard kill meets a job whose queued transition has already moved its holdings (`Tokens.HoldingsMoved` lists when).
- MIGR_CANCEL finds its guard true, and the execution a migration cancels is reported as done.
- The scheduler assigns a pending job once and moves a job whose execution is under way; a history record that was
  linked but could not be saved must name a host that keeps the claims where they are.

`Exactness.LedgerIffCleanRun` shows that these are not merely sufficient: in every run the host ledger holds after each
step if and only if each step meets them. Two more assumptions are part of what can happen at all (`LifeCycle.Enabled`):
the id of a freed job is not reused while something for it is queued or owed, and allocations succeed.

## Where the code falls short of its intent

Each is proved, with the exact condition under which the code does meet the property. The runs in `Witness.dfy` start
from the idle manager and meet all run assumptions, but for the last steps of `Witness.LostHost` and
`Witness.MovedHost`, which break the host ledger.

- A migration whose cancelled execution is reported as failed, and a MIGR_CANCEL that finds the execution already
  reported, leave one running job and its slots behind on the old host (`Exactness.MigrationLeaks`; the
  condition is `Exactness.LedgerIffCleanRun`, the runs `Witness.LostHost`).
- A hard kill of a running job corrects the host but never the user's counter: the counter is exact if and only if no
  step of the run killed a running job of the user hard (`Accounts.UsersExactIff`; the run is `Witness.LeakedUser`).
- A stop or kill that is handled after the wrapper's report, while the EPILOG transition is still queued, or whose
  cancelled execution is reported as failed, is never answered. Requests are conserved over a run if and only if no step
  of it drops one in this way (`Accounts.RunsConserveIff`; the runs are `Witness.LostRequest`).
- A history record whose file cannot be opened is linked although the dispatch is reported as failed. It may shift what
  the job holds to a host that never had it (`Exactness.LedgerIffClean` with `Conservation.CleanDispatch`; the run is
  `Witness.MovedHost`), and a migration may then fetch its restart files from a host on which the execution did not run.
  The source of a migration is known throughout a run if and only if no such record of another host is linked onto a
  queued migration (`Sources.KnownThroughoutIff`; the run is `Witness.WrongSource`).
- Epilogs and checkpoints write a slash between the checkpoint URL and the name of a restart file, prologs do not. A
  restarted job that does not migrate, or whose old host fails it, finds a restart file on the checkpoint server if and
  only if the URL ends in a slash, as the default does, or the name starts with one (`Transfers.RestartFound`; an input
  is `Transfers.SlashMissing`).
- `gw_array_add_task` tests its table one task too late (`ArrayPool.GuardIsLate`); its only caller adds exactly as many
  tasks as there are (`ArrayPool.Pool.FillArray`).
- `gw_am_trigger` drops an action and returns success when FINALIZE heads the queue (`ActionManager.TurnedAway`).
- A dependency list counts only the jobs that end after it was set. A held job is released by an end if and only if
  every job on its list has ended since then (`Dependencies.ReleasedIff`), which is as promised unless every job on the
  list has ended, but one of them only before (`Dependencies.ReleasedByEnds`): a job that is submitted when a job it
  depends on has ended waits for ever (`Witness.LateList`). An end is a normal one; a dependency that is killed or fails
  never counts.
- A list that is complete stays so while its job lives: a job that the user puts back on hold is released again by the
  next end of any job (`Dependencies.ReleasedAgain`; the run is `Witness.HoldUndone`). A job without a list, whatever
  job had its slot before, is released by its user alone (`Dependencies.UnlistedStaysHeld`).
- The client copies at most 49 dependencies of a job and drops the rest (`Client.DepCopy`).
- A signal to an array returns BAD_ARRAY_ID if and only if the array has no job or the status call before it fails
  (`Client.ArraySignal`); a failed status call is reported as a bad array, even if the array has jobs.
- A wait for many jobs reads a clock of whole seconds. It overruns its time-out if and only if the clock has shown all
  of it or an answer is late, and the last answer came later in its second than the wait had started in its own; by less
  than a second in all, however many answers there are (`Client.OverrunIff`; an input is `Client.Overruns`).
- In a deadline, characters that match no rule are passed over and a number starts over. Of all texts, exactly those are
  accepted that have an end of line, a number or components left from the deadline before, and never more than three
  components (`Deadline.AcceptedIff`). Two numbers with a colon and such characters between them are read as hours and
  minutes if and only if there are no such characters or the hours are zero (`Deadline.SpacedColonIff`; an input is
  `Deadline.HourLost`).

## Model

| member | source | states |
|---|---|---|
| `Steps.StepKeeps` | src/dm/gw_dm_state_epilogs.c:505-762 | every clean step of the manager keeps the invariant: outstanding work in order, and all five accounts (slots and running jobs of hosts, running jobs of users, open stops, open kills) equal to the sum over the jobs |
| `Consequences.ReachableLedger` | include/gw_host.h:179-193 | in every state that a clean run of an idle manager reaches, each host's used slots and running jobs are the sum over all jobs of what their states and queued transitions say they hold |
| `Steps.RunsKeep` | src/dm/gw_dm_action_kill.c:142-312 | the same after every clean run |
| `Steps.StartKeeps` | src/dm/gw_dm.c:60-254 | an idle manager satisfies the invariant |
| `Steps.HandleKeeps` | src/common/gw_action.c:284-373 | handling the action at the head of the queue, for a live job or a missing one, keeps the invariant |
| `Steps.DispatchKeeps` | src/dm/gw_dm_action_dispatch.c:34-161 | a first dispatch, a migration, a refused one and one called off all keep the invariant |
| `Steps.EmAnswerKeeps` | src/dm/gw_dm_state_wrappers.c:123-389 | a report of the Execution Manager may join the queue at any time without moving any account |
| `Steps.TmAnswerKeeps` | src/dm/gw_dm_state_prologs.c:145-280 | so may a report of the Transfer Manager |
| `Steps.CreationKeeps` | src/array/gw_array_pool.c:135-213 | new jobs and new arrays owe and hold nothing |
| `Conservation.ConcludeBalances` | src/dm/gw_dm_state_pending.c:61-67 | a handler that splits what a job held into what it gives back and what the job still holds moves the manager's counters and the sum over jobs by the same amount |
| `Tokens.CleanTurn` | src/dm/gw_dm_state_epilogs.c:505-762 | for every action and every job in order: outstanding work stays in order, what was held is given back or still held, the user's count moves with the job, and stop and kill requests stay open, are answered or are counted as lost |
| `Tokens.HandlersKeepTokens` | src/dm/gw_dm_state_wrappers.c:123-389 | each handler leaves at most the work outstanding that the job's new state expects: one transfer, one execution, or one queued report or transition |
| `Tokens.HandlersKeepLedger` | src/dm/gw_dm_state_prologs.c:213-280 | each handler gives back exactly the difference between the ledger's entry before and after |
| `Tokens.HandlersKeepCounts` | src/dm/gw_dm_state_stopped.c:56-68 | each handler keeps the user's count and the open requests |
| `Tokens.TokenMeets` | src/dm/gw_dm_action_dispatch.c:86-147 | which action can be first in the queue for a job in each state; never more than one life-cycle action is queued, but for MIGR_CANCEL followed by a report |
| `Witness.WholeLife` | src/dm/gw_dm_state_zombie.c:64-114 | the assumptions can be met: a job is submitted, dispatched, staged, executed and ended in one clean run, and host and user are then as they were |
| `Witness.LostRequest` | src/dm/gw_dm_state_wrappers.c:167-192 | in a clean run a stop, or a kill, arrives between the report of the execution and the transition it queues; it is accepted, and however a clean run goes on it is never answered |
| `Witness.LeakedUser` | src/dm/gw_dm_action_kill.c:142-312 | a clean run with a hard kill ends with nothing dispatched, hosts as at the start, and the user's counter at one |
| `Witness.LostHost` | src/dm/gw_dm_state_wrappers.c:371-387 | two clean runs, one to a failed report in MIGR_CANCEL and one to a MIGR_CANCEL that comes too late, whose next step leaves two slots and one running job too many on the old host |
| `Witness.MovedHost` | src/dm/gw_dm_action_dispatch.c:86-147 | after a clean run an unsaved record leaves host 0 with slots and a running job that nobody holds, and host 1 without those that the job now holds there |
| `Witness.WrongSource` | src/dm/gw_dm_state_prologs.c:431-457 | a clean run to a MIGR_PROLOG whose previous record names a host on which the execution did not run |
| `Witness.LateList` | src/dm/gw_dm_action_allocate.c:126-129 | a clean run in which a job is submitted after the only job on its list has ended, and however a clean run goes on without another end in that slot or a release by the user, it stays on hold |
| `Witness.HoldUndone` | src/job/gw_job_pool.c:154-208 | a clean run in which a job whose dependencies have ended is put back on hold and, with no release asked for, is released by the end of another job |
| `Exactness.LedgerIffClean` | src/dm/gw_dm_action_kill.c:177-278 | one step from a balanced state keeps every host's counters equal to the sum over the jobs if and only if the step is clean |
| `Exactness.LedgerIffCleanRun` | src/dm/gw_dm_action_kill.c:177-278 | the host ledger holds after every step of a run if and only if every step is clean |
| `Exactness.UncleanTurn` | src/dm/gw_dm_state_migrate.c:55-66 | every unclean handler leaves some host of the job's history with counters that do not add up |
| `Exactness.UncleanDispatch` | src/dm/gw_dm_action_dispatch.c:62-151 | every unclean dispatch does |
| `Exactness.MigrationLeaks` | src/dm/gw_dm_state_wrappers.c:371-387 | a failed report in MIGR_CANCEL, or a MIGR_CANCEL whose guard is false, leaves exactly one running job and np slots behind on the old host and nothing elsewhere |
| `Consequences.HardKillIsExactInverse` | src/dm/gw_dm_action_kill.c:177-278 | after a hard kill from any of the twenty states every host has the counters of the same system without the job, if and only if no queued transition has moved the job's holdings |
| `Consequences.QueueStateAgreement` | src/dm/gw_dm_state_epilogs.c:577-629 | a queued PENDING, FAILED, STOPPED or ZOMBIE finds its job in the very state that queued it, may be queued by that state, and is the job's only outstanding work; ZOMBIE never takes its default branch |
| `Consequences.RecordsExist` | src/dm/gw_dm_state_epilogs.c:559-562 | no handler follows a missing current or previous history record |
| `Consequences.StepsAreLegal` | include/gw_job.h:56-92 | every clean step moves every job along the life cycle |
| `Accounts.CountersNonnegative` | include/gw_host.h:179-193 | used slots and running jobs of hosts, and users' counters, never go negative |
| `Accounts.UserCounter` | src/dm/gw_dm_action_dispatch.c:86-86 | after every clean run each user's counter is the number of the user's dispatched jobs plus one for every running job of the user that a step of the run killed hard |
| `Accounts.UsersExactIff` | src/dm/gw_dm_action_kill.c:142-312 | so it is exact if and only if no step of the run killed a running job of the user hard |
| `Accounts.HardKillLeaks` | src/dm/gw_dm_action_kill.c:142-312 | a hard kill of a running job leaves the user's counter one too high |
| `Accounts.PromptReplies` | src/dm/gw_dm_action_hold_release.c:27-149 | in every run the hold, release, resume and reschedule requests handled are the ones answered |
| `Accounts.PromptTurn` | src/dm/gw_dm_action_reschedule.c:26-106 | a handler answers a hold, release, resume or reschedule if and only if that is the request it handles |
| `Accounts.RequestsKeptIff` | src/dm/gw_dm_action_stop_resume.c:26-92 | stop (kill) requests handled stay equal to those answered plus jobs being stopped (killed) if and only if no epilog transition or hard kill runs on a job being stopped (killed) |
| `Accounts.RequestsCount` | src/dm/gw_dm_action_stop_resume.c:26-92 | after every clean run the stops (kills) handled are those answered, those in progress, and those that a step of the run dropped |
| `Accounts.RunsConserveIff` | src/dm/gw_dm_action_stop_resume.c:26-92 | after every clean run stops (kills) are conserved if and only if no step of the run dropped one |
| `EpilogPhase.ReportsAgree` | src/dm/gw_dm_state_epilogs.c:537-758 | both epilog callbacks accept the same states and queue exactly one transition, to a state of smaller rank |
| `EpilogPhase.PhaseIsShort` | src/dm/gw_dm_state_epilogs.c:505-762 | however long a job stays in the epilog states, at most two epilog reports are handled for it, and the start times of its records do not change |
| `EpilogPhase.EntryStamps` | src/dm/gw_dm_state_epilogs.c:64-68 | entering the epilog states stamps the clock on exactly one record: the present one, or the previous one of a migration |
| `Restarts.RestartRecordExists` | src/dm/gw_dm_state_prologs.c:431-457 | a prolog of a restarted job, which follows the pointer to the previous record, finds one |
| `Restarts.StepRecorded` | src/dm/gw_dm_state_pending.c:61-71 | every clean step keeps enough records for every restarted job |
| `Sources.StepKnownIff` | src/dm/gw_dm_action_dispatch.c:86-147 | from a state in which the handlers' record of the last execution is right, a clean step keeps it right if and only if it does not link an unsaved record of another host onto a queued migration |
| `Sources.KnownThroughoutIff` | src/dm/gw_dm_state_migrate.c:25-70 | it is right after every step of a clean run if and only if no step does that |
| `Sources.MigrationSource` | src/dm/gw_dm_state_prologs.c:431-457 | after such a run of an idle manager, MIGR_PROLOG finds in the previous record the host where the cancelled execution was submitted |
| `CellOwnership.EveryCellHasOneOwner` | src/dm/gw_dm_action_kill.c:26-136 | in every run each job-id cell ever allocated is in the queue, with one manager, or freed, exactly once |
| `CellOwnership.HandleOwns` | src/dm/gw_dm_state_zombie.c:64-178 | every handler passes the cell of its action to exactly one place or frees it, never both |
| `CellOwnership.QueuedCellsAlive` | src/dm/gw_dm_action_wait.c:58-68 | no queued cell was freed and no two queued actions share one |
| `CellOwnership.ReachableCells` | src/dm/gw_dm_action_kill.c:26-136 | in every state that a run of an idle manager reaches, every cell has one owner and the queued cells are allocated, different and not freed |
| `ArrayTables.TablesAgreeAlways` | src/dm/gw_dm_action_kill.c:280-309 | after any run, clean or not, task tables, jobs, remaining tasks and the number of arrays agree |
| `ArrayTables.TablesMean` | src/array/gw_array.c:67-100 | entry k of a live array is job j exactly when j is live with that array and task, and a live array has a live job |
| `ArrayTables.ReachableTables` | src/array/gw_array.c:67-100 | the same in every state that a run of an idle manager reaches |
| `ArrayTables.FreeingAgrees` | src/dm/gw_dm_state_zombie.c:139-163 | freeing a job removes its entry, and the array's slot with the last one |
| `ArrayTables.NewArrayAgrees` | src/array/gw_array_pool.c:176-208 | a new array takes a free slot and lists its jobs in order |
| `TaskTables.DelTaskCounts` | src/array/gw_array.c:86-100 | remaining tasks are the live entries, repeated deletes included, and zero remain exactly when no other entry is live |
| `TaskTables.NextFreeUnique` | src/array/gw_array_pool.c:148-163 | the cyclic search has one answer |
| `ArrayPool.FindFree` | src/array/gw_array_pool.c:148-168 | the loop finds the first free slot in cyclic order after the last id given out, and fails exactly on a full pool |
| `ArrayPool.GuardIsLate` | src/array/gw_array.c:71-77 | the guard admits a write outside the table exactly when the table is full |
| `ArrayPool.GwArray.constructor` | src/array/gw_array.c:20-50 | a new table has no job in any entry |
| `ArrayPool.GwArray.AddTask` | src/array/gw_array.c:67-82 | the next task gets the job |
| `ArrayPool.GwArray.DelTask` | src/array/gw_array.c:86-100 | an entry is deleted once, and the remaining tasks are returned |
| `ArrayPool.JobPool.Allocate` | src/job/gw_job_pool.c:401-437 | a job gets the next free id, and -1 is returned exactly when the pool is full |
| `ArrayPool.Pool.Allocate` | src/array/gw_array_pool.c:135-213 | an array is allocated exactly when its tasks fit the job pool and a slot is free, in the next free slot, with tasks 0 to n-1 in the order of newly allocated jobs; otherwise nothing changes |
| `ArrayPool.Pool.FillArray` | src/array/gw_array_pool.c:188-204 | after the capacity check every job allocation succeeds and every task is within the table |
| `ArrayPool.Pool.Free` | src/array/gw_array_pool.c:104-129 | an occupied slot is emptied and counted once |
| `ArrayPool.Pool.RemoveTask` | src/dm/gw_dm_state_zombie.c:139-163 | a freed job's task leaves its array, and the array its slot with the last task |
| `Allocation.AllocationIsNewArray` | src/array/gw_array_pool.c:135-213 | jobs numbered by the pool, in a slot that the pool's search found, are exactly the tasks of the array that the system's step creates |
| `Allocation.AllocateArray` | src/array/gw_array_pool.c:135-213 | an allocation takes pools that mirror a state to pools that mirror the state after that step, or leaves them alone |
| `Dispatcher.DispatchManager.HandleNext` | src/common/gw_action.c:284-373 | one round of the loop takes the head of the queue and changes the manager exactly as the model's step |
| `Dispatcher.DispatchManager.Loop` | src/common/gw_action.c:284-373 | a drain of the queue with nothing in between follows the model, as long as it is clean, and ends in a balanced state |
| `Dispatcher.DispatchManager.Run` | src/common/gw_action.c:284-373 | driven by any sequence of events (handled actions, posted signals, dispatches, checks, reports and notes of the other managers, cells freed, new jobs and arrays) the manager in memory follows every clean run of the model and ends in a balanced state |
| `Dispatcher.DispatchManager.Do` | src/common/gw_action.c:249-279 | one event of any kind changes the manager exactly as the model's step |
| `Dispatcher.DispatchManager.KillJobHard` | src/dm/gw_dm_action_kill.c:142-312 | the fall-through switch gives back exactly the ledger's entry for the state, frees the job and its task, and answers |
| `Dispatcher.FallThrough` | src/dm/gw_dm_action_kill.c:177-278 | the cases of the switch add up to the ledger's entry in every state |
| `Dispatcher.DispatchManager.KillJob` | src/dm/gw_dm_action_kill.c:26-136 | a waiting or finished job is freed, a running one cancelled, any other refused |
| `Dispatcher.DispatchManager.HoldJob` | src/dm/gw_dm_action_hold_release.c:27-87 | only a pending job is held |
| `Dispatcher.DispatchManager.ReleaseJob` | src/dm/gw_dm_action_hold_release.c:93-149 | only a held job is released |
| `Dispatcher.DispatchManager.StopJob` | src/dm/gw_dm_action_stop_resume.c:26-92 | only a job in WRAPPER is stopped, and its rescheduling dropped |
| `Dispatcher.DispatchManager.ResumeJob` | src/dm/gw_dm_action_stop_resume.c:98-158 | only a stopped job is resumed, as restarted |
| `Dispatcher.DispatchManager.WaitForJob` | src/dm/gw_dm_action_wait.c:26-71 | the waiter is counted and answered at once, or its cell freed |
| `Dispatcher.DispatchManager.RescheduleJob` | src/dm/gw_dm_action_reschedule.c:26-106 | a running job is flagged, a failed one restarted |
| `Dispatcher.DispatchManager.PrologDone` | src/dm/gw_dm_state_prologs.c:145-207 | the job goes on to the pre-wrapper, the wrapper or the migration's epilog |
| `Dispatcher.DispatchManager.PrologFailed` | src/dm/gw_dm_state_prologs.c:213-280 | slots go back, and for a migration the running job of the old host |
| `Dispatcher.DispatchManager.WrapperDone` | src/dm/gw_dm_state_wrappers.c:123-293 | slots go back on the present host, or on the old one of a migration, and one transition is queued |
| `Dispatcher.DispatchManager.WrapperFailed` | src/dm/gw_dm_state_wrappers.c:300-389 | slots go back on the present host in every state, and EPILOG_FAIL is queued |
| `Dispatcher.DispatchManager.EpilogDone` | src/dm/gw_dm_state_epilogs.c:505-632 | one transition is queued in each epilog state; a migration gives back the old host's running job |
| `Dispatcher.DispatchManager.EpilogFailed` | src/dm/gw_dm_state_epilogs.c:638-762 | the same for a failed epilog, with the reason recorded |
| `Dispatcher.DispatchManager.ParseWrapperOutput` | src/dm/gw_dm_state_epilogs.c:913-992 | the first letter of the exit status decides between an exit code and the reason for a restart; an output without a status, or none, is an error |
| `Dispatcher.DispatchManager.EnterProlog` | src/dm/gw_dm_state_prologs.c:27-81 | the prolog's transfers are started, or its failure is queued |
| `Dispatcher.DispatchManager.EnterMigrProlog` | src/dm/gw_dm_state_prologs.c:87-139 | the same for a migration |
| `Dispatcher.DispatchManager.EnterPreWrapper` | src/dm/gw_dm_state_wrappers.c:25-68 | the pre-wrapper is submitted |
| `Dispatcher.DispatchManager.EnterWrapper` | src/dm/gw_dm_state_wrappers.c:74-117 | the wrapper is submitted |
| `Dispatcher.DispatchManager.EnterMigrCancel` | src/dm/gw_dm_state_migrate.c:25-70 | the running execution is cancelled if it is still running |
| `Dispatcher.DispatchManager.EnterStampedEpilog` | src/dm/gw_dm_state_epilogs.c:33-357 | five epilog entries set the state and stamp the start unless the job is there already |
| `Dispatcher.DispatchManager.EnterLastEpilog` | src/dm/gw_dm_state_epilogs.c:363-426 | EPILOG keeps the start time of EPILOG_STD |
| `Dispatcher.DispatchManager.EnterEpilogRestart` | src/dm/gw_dm_state_epilogs.c:433-499 | EPILOG_RESTART stamps nothing |
| `Dispatcher.DispatchManager.EnterPending` | src/dm/gw_dm_state_pending.c:26-100 | the job leaves host and user and counts a restart, whatever its state |
| `Dispatcher.DispatchManager.EnterFailed` | src/dm/gw_dm_state_failed.c:26-91 | the job leaves host and user and waiters are told |
| `Dispatcher.DispatchManager.EnterStopped` | src/dm/gw_dm_state_stopped.c:26-71 | the job leaves host and user and the stop is answered |
| `Dispatcher.DispatchManager.EnterZombie` | src/dm/gw_dm_state_zombie.c:30-180 | a finished job leaves host and user and wakes its dependents, a killed one is freed with its task, any other is left alone |
| `Dispatcher.DispatchManager.FreeJob` | src/dm/gw_dm_action_kill.c:66-102 | the slot of the job is emptied, its task leaves its array, and the array goes with its last task |
| `Dispatcher.DispatchManager.DispatchJob` | src/dm/gw_dm_action_dispatch.c:34-161 | a dispatch of any job in any state changes the manager exactly as the model's step |
| `Dispatcher.DispatchManager.UncheckJob` | src/dm/gw_dm_action_schedule.c:219-237 | the rescheduling flag and reason are cleared unless the job is pending |
| `Dispatcher.DispatchManager.CheckJobs` | src/dm/gw_dm_action_schedule.c:74-213 | a round flags exactly the running jobs without a reason that have waited longer than their suspension limit, or whose rescheduling interval is over while they are below their threshold, and touches nothing else |
| `Dispatcher.DispatchManager.constructor` | src/dm/gw_dm.c:60-254 | the manager starts idle |
| `Listener.Schedule` | src/dm/gw_dm_action_schedule.c:41-85 | a timer thread starts a round, checking every job, if and only if none is being prepared or outstanding, and changes nothing otherwise |
| `Listener.OnMessage` | src/dm/gw_dm_listener.c:141-183 | each message of the scheduler dispatches one job, clears one job's flag, or ends the round, and nothing else |
| `ActionManager.RunsInOrder` | src/common/gw_action.c:136-160 | over any interleaving, accepted actions are the dispatched ones followed by the queue, in order |
| `ActionManager.EndsAtFinalize` | src/common/gw_action.c:341-363 | when the loop has ended, the dispatched actions are the accepted ones cut just after the first FINALIZE |
| `ActionManager.TurnedAway` | src/common/gw_action.c:249-279 | a trigger is turned away exactly when its name is unknown or FINALIZE heads the queue |
| `ActionManager.ListAdd` | src/common/gw_action.c:63-82 | the recursive walk appends one node and leaves the others in place |
| `ActionManager.Manager.Register` | src/common/gw_action.c:217-244 | a name is added, or refused when the table is full |
| `ActionManager.Manager.IsRegistered` | src/common/gw_action.c:105-131 | the first place of a name, or -1 |
| `ActionManager.Manager.PostAction` | src/common/gw_action.c:136-146 | the list and the pending counter grow together |
| `ActionManager.Manager.PopAction` | src/common/gw_action.c:151-160 | they shrink together |
| `ActionManager.Manager.Trigger` | src/common/gw_action.c:249-279 | a trigger changes the list as the model says and returns -1 exactly for an unknown name |
| `ActionManager.Manager.TimeOut` | src/common/gw_action.c:312-326 | a time-out on an empty queue posts the timer action |
| `ActionManager.Manager.DispatchNext` | src/common/gw_action.c:330-361 | the head is dispatched, and the loop ends at FINALIZE |
| `ActionManager.Run` | src/common/gw_action.c:284-373 | the list in memory follows every run of the model |
| `ActionManager.InitDispatchManager` | src/dm/gw_dm.c:74-254 | all 34 names of the Dispatch Manager fit the table of 40 |
| `ActionManager.HandlersTriggerRegistered` | src/dm/gw_dm.c:74-254 | every action that a handler triggers in its own manager is registered |
| `Queues.StepHolds` | src/common/gw_action.c:284-373 | every step of the system is a dispatch and a trigger of the action manager's list, and the list goes on holding the queued actions with their cells |
| `Queues.ReachableQueues` | src/common/gw_action.c:249-373 | from an idle system and an idle action manager on, the head of the list is the head of the queue whenever it carries a job |
| `Queues.ListHoldsQueue` | src/common/gw_action.c:249-373 | over any run, with timers and new jobs in between, the list holds the queue of the system: actions of jobs are handled in its order, each with the cell it was triggered with |
| `Scheduling.OneRoundAtATime` | src/dm/gw_dm_action_schedule.c:54-84 | with any number of timer threads, the flag is set exactly when one thread prepares a round or one round awaits its end |
| `Scheduling.ExclusiveIffAnswers` | src/dm/gw_dm_listener.c:171-178 | a step keeps mutual exclusion if and only if no SCHEDULE_END arrives while a thread is still inside |
| `Scheduling.Scheduler.TryEnter` | src/dm/gw_dm_action_schedule.c:54-66 | the test-and-set lets in one thread |
| `Scheduling.Scheduler.EndRound` | src/dm/gw_dm_listener.c:171-178 | the end of a round clears the flag |
| `Transfers.BuildEpilog` | src/dm/gw_dm_state_epilogs.c:74-494 | for every template and epilog state every slot of the list is written exactly once with the source and target of the promised file, the final index is the number computed before, and a slot is at most failure_limit exactly when its file is required |
| `Transfers.TransferList.StdWrapperFiles` | src/dm/gw_dm_state_epilogs.c:768-792 | the wrapper's two files take the next two slots, the first of them required |
| `Transfers.TransferList.StdFiles` | src/dm/gw_dm_state_epilogs.c:796-862 | the files of execution, pre-wrapper and monitor take the next slots, in order |
| `Transfers.TransferList.OutputFiles` | src/dm/gw_dm_state_epilogs.c:866-885 | the output files take the next slots |
| `Transfers.TransferList.RestartFiles` | src/dm/gw_dm_state_epilogs.c:889-907 | the restart files take the next slots |
| `Transfers.NumXfrs` | src/dm/gw_dm_state_epilogs.c:405-494 | the number computed beforehand is the length of the promised list |
| `Transfers.BuildProlog` | src/dm/gw_dm_state_prologs.c:286-459 | the same for the prolog's list, with modes and alternative sources; its limit excludes exactly the restart files |
| `Transfers.SameFileIff` | src/dm/gw_dm_state_epilogs.c:889-907 | the URLs of a restart file in epilogs and in prologs mean the same file if and only if the checkpoint URL ends in a slash or the name starts with one |
| `Transfers.RestartFound` | src/dm/gw_dm_state_prologs.c:431-457 | a migrating job looks for a restart file first in the directory of the previous execution, and every restarted job at last on the checkpoint server, where it was saved if and only if that holds, as long as the buffer does not cut the URL |
| `Transfers.SlashMissing` | src/dm/gw_dm_state_epilogs.c:889-907 | with a checkpoint URL and a name that have no slash where they meet, the epilog saves one file and the prolog looks for another |
| `Staging.StageOut` | src/dm/gw_dm_state_epilogs.c:33-499 | an epilog entry puts the job in its state and hands the Transfer Manager exactly the list that the state, the template and the job's host ask for |
| `Staging.StageIn` | src/dm/gw_dm_state_prologs.c:27-139 | a prolog entry does the same if the job's environment file could be written, and starts nothing otherwise |
| `Dependencies.ReleasedWhenAllEnded` | src/job/gw_job_pool.c:154-208 | a list is all crossed off if and only if every job on it has ended, in any order |
| `Dependencies.ReleasedIff` | src/dm/gw_dm_state_zombie.c:64-114 | in any step a held job that lives on is released if and only if its user's release is handled, or a job ends normally and every job on its list has ended since the list was set |
| `Dependencies.ReleasedByEnds` | include/gw_client.h:108-110 | over runs: from the setting of its list on, a held job is released by an end if and only if every job on the list has ended since; that differs from the promise, which counts earlier ends, exactly when all have ended but one only before |
| `Dependencies.PromisedRelease` | include/gw_client.h:108-110 | so the promise is kept whenever no job on the list had ended before the list was set |
| `Dependencies.SinceIs` | src/job/gw_job_pool.c:135-148 | a list remembers exactly the ends since it was set, as long as its job lives and no other list is set |
| `Dependencies.StaysHeld` | src/job/gw_job_pool.c:154-208 | a held job with a job on its list that has not ended since stays on hold over every clean run in which that job does not end and the user does not release it |
| `Dependencies.UnlistedStaysHeld` | src/job/gw_job_pool.c:154-208 | a held job without a list stays on hold over every clean run in which the user does not release it |
| `Dependencies.ReachableLists` | src/job/gw_job_pool.c:480-536 | in every state that a run of an idle system reaches only live jobs have lists, so none is inherited with a slot |
| `Dependencies.NewJobHasNoList` | src/job/gw_job_pool.c:480-536 | a new job starts without a list |
| `Dependencies.ReleasedAgain` | src/job/gw_job_pool.c:154-208 | a list that is all crossed off stays so at every later end |
| `Dependencies.DependencyTable.DepCheck` | src/job/gw_job_pool.c:154-208 | the end of a job crosses it off every list, and exactly the slots are ready whose lists have nothing left after the ends since each was set |
| `Dependencies.DependencyTable.DepSet` | src/job/gw_job_pool.c:101-148 | a list is copied up to its end into the slot of its job, with no end remembered; an empty list is none |
| `Dependencies.HandleNext` | src/dm/gw_dm_state_zombie.c:64-180 | a round of the manager's loop with the table beside it is a step of the system with its lists: ends release what the table finds ready, and a freed job takes its list with it |
| `Client.EachJobOnce` | src/client/gw_client_signal.c:184-256 | the two passes signal every job of the array exactly once and no other |
| `Client.ArraySignal` | src/client/gw_client_signal.c:168-263 | waiting and finished jobs are signalled first, then the active ones; the result tells whether all succeeded, and is BAD_ARRAY_ID if and only if the status call failed or no job matches |
| `Client.BadIdIffNoJob` | src/client/gw_client_signal.c:258-262 | the result is BAD_ARRAY_ID exactly when no job matches |
| `Client.RebuildTable` | src/client/gw_client_submit.c:354-366 | the loop rebuilds the table from the pool |
| `Client.RebuildsServerTable` | src/client/gw_client_submit.c:354-366 | given a report of the live jobs in any order, the rebuilt table agrees with the server's on every live task |
| `Client.DepCopy` | src/client/gw_client_submit.c:382-408 | at most 49 dependencies are copied, and all of them exactly when there are no more |
| `Client.WaitAll` | src/client/gw_client_wait.c:382-446 | answers are taken until one comes later than the seconds left; each fills the place of its job, the result is a time-out or the last failure, and the return comes when the total of the waits is over |
| `Client.WaitTime` | src/client/gw_client_wait.c:388-412 | a wait that times out lasts the time-out, and one that does not lasts the seconds shown, plus the fraction of a second at the last answer less the one at the start |
| `Client.OverrunIff` | src/client/gw_client_wait.c:388-412 | it overruns its time-out if and only if all its seconds were shown or an answer is late, and that fraction is larger at the last answer than at the start; by less than a second in all |
| `Client.Overruns` | src/client/gw_client_wait.c:388-412 | with a time-out of one second, one answer after nine tenths and none after it make a wait of 1.9 seconds |
| `Client.CodesMatch` | src/client/gw_client_wait.c:429-442 | with distinct jobs each answered once in any order, exit code k is the code of job k |
| `Client.SuccessIffAll` | src/client/gw_client_wait.c:382-446 | the result is success exactly when every answer is |
| `Client.TestAny` | src/client/gw_client_wait.c:217-243 | a zero time-out finds the first finished job in list order, unless a status fails before it |
| `Client.TestAll` | src/client/gw_client_wait.c:244-263 | a zero time-out on all succeeds exactly when every job has finished |
| `Deadline.RoundTrip` | src/common/gw_template_parser.c:1561-1595 | parsing a printed deadline yields it rounded down to the minute |
| `Deadline.PrintParsePrint` | src/common/gw_template.c:255-262 | printing what was parsed prints the same text |
| `Deadline.NoOverflow` | src/common/gw_template_parser.c:1561-1591 | reading a printed deadline overflows nowhere if and only if the deadline, rounded down to the minute, fits an int |
| `Deadline.ParsesDays` | include/drmaa.h:324-337 | days, hours and minutes are read as documented |
| `Deadline.ParsesHours` | include/drmaa.h:324-337 | hours and minutes are |
| `Deadline.ParsesMinutes` | include/drmaa.h:324-337 | minutes are |
| `Deadline.SpacedColonIff` | src/common/gw_template_parser.l:224-245 | two numbers with a colon and any characters that match no rule between them are read as hours and minutes if and only if there are no such characters or the hours are zero; otherwise as the second number in minutes |
| `Deadline.HourLost` | src/common/gw_template_parser.l:224-245 | an hour and a half with a blank after the colon is read as half an hour |
| `Deadline.OutcomeIs` | src/common/gw_template_parser.l:224-245 | what comes of any text at all: an error if there are ever more than three components, else nothing without an end of line, else the last number and the parts after it |
| `Deadline.AcceptedIff` | src/common/gw_template_parser.l:224-245 | a text sets a deadline if and only if it has an end of line, something to compute and never more than three components; every documented text does, and any other one that does has characters passed over, a number that starts over, or no number first |
| `Deadline.DocumentedIff` | include/drmaa.h:324-337 | a text has the documented form if and only if nothing in it is passed over and it is a number and at most two parts |
| `Deadline.Parser.Scan` | src/common/gw_template_parser.l:224-245 | the rule actions on the parser's variables, applied to the longest matches up to a line end that may follow blanks and a comment, compute the parse, with its errors and with a text that ends before the line does |

## Left out

- Steps.RunsKeep: assumes clean runs; `Exactness.LedgerIffCleanRun` shows that the host ledger needs every one of the
  assumptions.
- Dispatcher.DispatchManager.EnterZombie: takes the set of held jobs whose dependencies are met;
  `Dependencies.HandleNext` runs it with the table that finds them.
- Dependencies.ReleasedIff: the repair of the table after a restart of the daemon is not modelled.
- Dispatcher.DispatchManager.CheckJobs: takes the time each wrapper has run and the time of day; the messages it sends
  to the scheduler are not modelled.
- Dispatcher.DispatchManager.ParseWrapperOutput: the number in the exit status, and new requirements and rank of a
  self-migration, are not kept.
- Transfers.RestartFound: speaks of the URLs that the Dispatch Manager writes; the Transfer Manager still substitutes
  variables in them.
- Client.WaitAll: a connection that fails is not modelled, and no time passes but in the waits.
- Client.ArraySignal: takes the client's pool as it is after the status call; the source releases its lock between two
  jobs.
- Deadline.Parser.Scan: computes in unbounded integers; `Deadline.NoOverflow` says when the source's int is enough.
- Scheduling.ExclusiveIffAnswers: the flag is also cleared when the scheduler process is reloaded; that is not modelled.
- ActionManager.Manager.IsRegistered: needs a registered name; on an empty table the source's search runs past its end,
  and every manager registers its names before it starts.
- ArrayPool.GwArray.AddTask: excludes the write outside a full table that the source's guard lets through.
- ArrayPool.FindFree: needs a pool of at least one slot; the source divides by its size.
- The job mutexes: a handler or a dispatch is one step. What one of them does between two locks is not visible to the
  others in the model.
- Messages to the scheduler, logging, accounting, clock values other than the epilog's start time and those of the
  checks: no state of the model depends on them.
- The inside of the Execution and Transfer Managers: each owes one report per submission or transfer, in the cell of the
  request or in a new one, and may keep, renew or free the cells it was handed.
- The job environment file, the wrapper's output and the outcome of adding a history record: inputs of the step that
  meets them.
- The user's count of submitted jobs, host monitoring, recovery, daemon shutdown beyond FINALIZE, running out of memory.
- Checkpoint transfers, Berkeley DB accounting, DRMAA and command-line code, drivers and schedulers.
- The int width of counters: host and user counters are unbounded; only the deadline arithmetic is checked against the
  source's int.
