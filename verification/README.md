# Verified models of the Knot client

Knot is a client and daemon pair for local services. This project models three parts of the client and
proves what they keep over whole runs:

1. **The task display of `components/shared/terminal`.** Tasks, sequences, steps and spacers share one
   ordered list of progress bars with a single movable anchor. The tree a user is meant to see (blocks, each
   with its head, the head's reports, its children in order, each child's reports) is never stored: it only
   follows from a series of `insert` and `insert_after` calls. `Blocks` is a state machine in which one
   critical section of the layout mutex, or the clearing of one bar, is one atomic action, so that a sequence
   of actions is any interleaving of any number of threads. `TaskValues`, `SequenceValues` and `Builders`
   give each operation as a function on values; `Layouts`, `Tasks` and `TaskBuilders` are the objects that
   update their fields in place, each method proved against those functions; `TaskHistory`,
   `TaskEffects`, `SequenceValues`, `Bisimulation`, `Engines` and `EngineEffects` prove what the functions
   promise. `Simulation` connects the two levels: every operation of a task is a legal run of the display machine on the task's own block.
2. **Process identity and the kill protocol of `components/sdk/sys` and `KillHandle`.** `Kernels` is an
   operating system in which processes are spawned, renamed, exit, are reaped and PIDs are reused between any
   two client actions. `Processes` (Linux) and `MacProcesses` are the client's programs over an arbitrary
   such environment.
3. **Connecting, recovery and sessions of `components/sdk/facade`.** `LockFiles`, `Recovery` and `Launches`
   are `connect`, `clean` and `launch`; `Sessions` is any number of client sessions against one daemon.

`Durations` is the uptime printer of `components/sdk/core` with an independent parser.

## Results that differ from the documentation

The model follows the code. Where the code and what is said about it disagree:

- **A bulk failure can tear a report from its task.** When an unfinished task that has entries fails as a whole
  while its own block holds the anchor, the anchor is re-homed onto the head although the head's report is
  below it, and the next block lands between the two. `Blocks.BulkFailureExact` and
  `Engines.BulkFailureExactAtApi` give the exact condition, `Blocks.ReportIsTornFromItsTask` the input; all
  display theorems exclude exactly this case.
- **The return value of `*_by_id`.** It is documented as "the stage was found and updated". Once the task is
  finished it is `false` although the stage and the sets were updated (`TaskHistory.CallTracks`).
- **The message of `finish`.** It is documented as the message of the root task. It is shown only if the
  sequence has no stage, because the last skip completes the root with "success"
  (`SequenceValues.FinishMessageShown`).
- **A sequence over any task.** `TaskSequence::new` accepts every task, but the linear order holds in every run
  exactly when the task is fresh and its stage ids are pairwise distinct
  (`SequenceValues.FreshAndDistinctExactly`). With a repeated id, settling one stage settles another that is
  still ahead; over a task of which a stage has failed before, the sequence goes through its stages with `ok` and
  the root stays failed (`SequenceValues.UsedTaskStaysFailed`). Tasks made by `TaskSequenceBuilder` meet both conditions.
- **`Reused` on macOS** is also reported for a process that was renamed and still runs
  (`MacProcesses.RenameIsReportedAsReuse`), and `kill` then fails without a signal (`MacProcesses.KillProcess`).
- **A killed daemon that has not been reaped** still holds its PID under its name, so `connect` reports it as
  hung although `kill` succeeded (`Recovery.KilledIsStaleOnceReaped`).
- **`handshake` on an unregistered workspace** is documented as a contract error; the code returns an
  uncommitted session (`Sessions.DeliveredHandshakeOpens`).
- **A spawned child that cannot be bound** is not killed by `launch` (`Launches.Launch`).

## Assumptions

- Two instances that held the same PID have different start times, and an exited instance never returns
  (`components/sdk/sys/src/metadata.rs:16-21`). An exited process holds its PID until it is reaped; a signal
  through a pidfd fails with "no such process" only after that; a pidfd is readable once the process exited.
- `poll` on a pidfd does not fail with "no such process".
- The monotonic clock never goes back and a sleep lasts at least as long as asked (`MacProcesses.SleepsFully`).
- On macOS an identity check and the signal after it are one action: the PID does not change hands between the two.
- The daemon follows the request contract of `proto/knot/v1/commands/commit.proto:15-24` and
  `proto/knot/v1/commands/up.proto:21-23`: a commit or an `up` is accepted only on the workspace's current
  revision, and a revision is never issued twice for a workspace. A handshake registers an unknown workspace
  without a manifest (`components/sdk/facade/src/handles/connected.rs:65-69`).
- `Path::exists` tells the truth about the two artefacts, and a lock that cannot be read as text has no PID.
- A block is driven by one thread at a time, as `&mut self` demands; different blocks by any threads.

## Model

| member | source | states |
|---|---|---|
| Blocks.EveryInterleavingDisplaysWholeBlocks | components/shared/terminal/src/layout.rs:34-76 | over every interleaving without a harmful re-homing, the visible bars are a concatenation of whole blocks, each its flattened tree, and the anchor is at the visible end of a block |
| Blocks.StepKeepsInv | components/shared/terminal/src/layout.rs:34-76 | the invariant over list, anchor, hidden bars and all blocks under construction or clearing, kept by each single action |
| Blocks.TargetsAreVisible | components/shared/terminal/src/layout.rs:46-62 | every node handed to `insert_after` is visible in the list, and the next node id was never used |
| Blocks.AddChildKeepsInv | components/shared/terminal/src/task/builder.rs:129-183 | a builder's insertion point is the visible end of its block whatever other threads inserted meanwhile |
| Blocks.ReportChildKeepsInv | components/shared/terminal/src/renderer.rs:322-342 | a report goes directly below its stage, above older reports, and takes the anchor along when it was on that stage |
| Blocks.RehomeKeepsInv | components/shared/terminal/src/task.rs:80-98 | clearing leaves the head line of the block, and the anchor off cleared bars |
| Blocks.RehomeExact | components/shared/terminal/src/task.rs:93-95 | re-homing leaves whole blocks if and only if the head has no report or the anchor was not on a cleared bar |
| Blocks.BulkFailureExact | components/shared/terminal/src/task.rs:123-138 | an undisturbed bulk failure leaves whole blocks if and only if the task has no entries or its block does not hold the anchor |
| Blocks.CallerGuardSuffices | components/shared/terminal/src/task.rs:330-340 | if the guard holds when each bulk failure is called, no re-homing is harmful, whatever other threads do before the head report and before the re-homing |
| Blocks.GuardedInterleavingsDisplayWholeBlocks | components/shared/terminal/src/task.rs:330-340 | whole blocks over every interleaving in which each bulk failure is called under that guard |
| Blocks.ReportIsTornFromItsTask | components/shared/terminal/src/task.rs:135-138 | the failing input: one stage, a bulk failure, then a spacer between the head and its report |
| Layouts.TaskLayout.NextId | components/shared/terminal/src/layout.rs:30-32 | ids count up |
| Layouts.TaskLayout.Insert | components/shared/terminal/src/layout.rs:34-44 | new bar below the anchor, or last without one; it becomes the anchor |
| Layouts.TaskLayout.InsertBelow | components/shared/terminal/src/layout.rs:46-62 | new bar right below the target; an anchor on the target moves to it |
| Layouts.TaskLayout.SetAnchor | components/shared/terminal/src/layout.rs:64-67 | the anchor is the given node |
| Layouts.TaskLayout.UpdateAnchorIfIn | components/shared/terminal/src/layout.rs:69-76 | an anchor among the nodes moves to the fallback, any other stays |
| Tasks.InsertFailure | components/shared/terminal/src/renderer.rs:322-342 | the failure event, and interactively one recorded report below the node |
| Tasks.ClearRenderer | components/shared/terminal/src/renderer.rs:399-413 | hides the node and its reports, and returns exactly those |
| Tasks.Task.ClearChildren | components/shared/terminal/src/task.rs:80-98 | hides all bars of all entries, re-homes the anchor if it was on one, drops the entries |
| Tasks.Task.SetCompleted | components/shared/terminal/src/task.rs:113-121 | first completion only: success on the head, children cleared |
| Tasks.Task.SetFailedAndInsert | components/shared/terminal/src/task.rs:123-126 | failure with a report below the head |
| Tasks.Task.SetFailedAndFreeze | components/shared/terminal/src/task.rs:128-133 | failure; children stay |
| Tasks.Task.SetFailedAndClear | components/shared/terminal/src/task.rs:135-138 | failure with a report, then the children are cleared |
| Tasks.Task.UpdateState | components/shared/terminal/src/task.rs:154-171 | freeze on a failed stage, complete when all are done, else nothing; false once finished |
| Tasks.Task.GetStage | components/shared/terminal/src/task.rs:174-194 | the first stage with the id, if there is one |
| Tasks.Task.RunById | components/shared/terminal/src/task.rs:203-217 | the whole new task and layout of one call |
| Tasks.Task.OkById | components/shared/terminal/src/task.rs:224-242 | the whole new task and layout of one call |
| Tasks.Task.FailById | components/shared/terminal/src/task.rs:252-269 | the whole new task and layout of one call |
| Tasks.Task.SkipById | components/shared/terminal/src/task.rs:278-296 | the whole new task and layout of one call |
| Tasks.Task.PerformOk | components/shared/terminal/src/task.rs:304-320 | the loop is the series of single calls over the ids collected first |
| Tasks.Task.PerformFail | components/shared/terminal/src/task.rs:330-340 | the loop, then report and clear |
| Tasks.Task.PerformRun | components/shared/terminal/src/task.rs:347-355 | the loop, although entries may be cleared under it |
| Tasks.Task.PerformSkip | components/shared/terminal/src/task.rs:362-370 | the loop over the ids collected first |
| TaskHistory.HistoryDeterminesTask | components/shared/terminal/src/task.rs:154-296 | after any history the two sets are the last writes per stage, and the task finished at the first call that failed a known stage or left all stages done |
| TaskHistory.CallTracks | components/shared/terminal/src/task.rs:203-296 | one more call of any kind, and its return value: known stage and task not finished before |
| TaskHistory.SetsAreSound | components/shared/terminal/src/task.rs:113-171 | the sets are disjoint and within the ids; an unfinished task has no failed stage and an undone one |
| TaskHistory.VerdictIsLatched | components/shared/terminal/src/task.rs:154-171 | once finished, no further calls change the verdict |
| TaskHistory.PerformOkSucceeds | components/shared/terminal/src/task.rs:304-320 | from any reachable unfinished task, also with repeated ids: finished and successful |
| TaskHistory.PerformSkipSucceeds | components/shared/terminal/src/task.rs:362-370 | finished, successfully, if and only if there is a stage |
| TaskHistory.PerformFailFails | components/shared/terminal/src/task.rs:330-340 | failed, every id in the failed set, no entries left |
| TaskHistory.PerformRunReopens | components/shared/terminal/src/task.rs:347-355 | never finishes the task; the done set is empty |
| TaskEffects.FailedStageIsReported | components/shared/terminal/src/task.rs:252-269 | a failed stage gets exactly one report right below its node, which it records, and shows the failure; in plain mode the layout is untouched |
| TaskEffects.QuietCallShowsStatus | components/shared/terminal/src/task.rs:203-296 | a run, and an `ok` or `skip` that completes nothing, leave the layout as it is and change the status of their stage alone, to the call's message |
| TaskEffects.UnknownIdDoesNothing | components/shared/terminal/src/task.rs:203-207 | a call on an unknown id does nothing and returns false |
| TaskEffects.CompletingCallClears | components/shared/terminal/src/task.rs:80-121 | the call that makes the last stage done hides all bars of all entries and nothing else, and moves an anchor among them to the head, which shows success |
| TaskEffects.ClearedNodesMembers | components/shared/terminal/src/renderer.rs:399-413 | what is cleared is every entry's bar and all its reports |
| TaskEffects.BulkRunIsShown | components/shared/terminal/src/task.rs:347-355 | after a bulk run every stage shows running and nothing visible has moved |
| TaskEffects.BulkFailureIsReported | components/shared/terminal/src/task.rs:123-138 | a bulk failure adds one report right below the head, hides all entries with their reports, and drops them |
| TaskEffects.FailedSequenceIsReported | components/shared/terminal/src/sequence.rs:90-99 | a failed sequence reports below its current stage; the skips after it touch no layout |
| TaskBuilders.TaskBuilder.CreateHeadRenderer | components/shared/terminal/src/task/builder.rs:105-127 | head bar at the anchor, which is the first insertion point |
| TaskBuilders.TaskBuilder.CreateChildRenderer | components/shared/terminal/src/task/builder.rs:129-159 | child bar below the insertion point, which moves to it |
| TaskBuilders.TaskBuilder.ApplyAutoIndent | components/shared/terminal/src/task/builder.rs:161-183 | a trailing spacer as one more entry, interactively only |
| TaskBuilders.TaskBuilder.Start | components/shared/terminal/src/task/builder.rs:197-250 | the whole block, the final anchor and the automatic runs |
| TaskBuilders.TaskSequenceBuilder.WithStage | components/shared/terminal/src/sequence/builder.rs:43-53 | the next generated id, counter and declared steps in step |
| TaskBuilders.TaskSequenceBuilder.Start | components/shared/terminal/src/sequence/builder.rs:70-79 | `start` and `build`: the sequence over the started task |
| TaskBuilders.TaskSequence.Ok | components/shared/terminal/src/sequence.rs:68-79 | settle, advance, activate the next stage or complete |
| TaskBuilders.TaskSequence.Fail | components/shared/terminal/src/sequence.rs:90-99 | fail the current stage and skip the rest |
| TaskBuilders.TaskSequence.Skip | components/shared/terminal/src/sequence.rs:110-121 | as `ok`, with a skip |
| TaskBuilders.TaskSequence.SkipStages | components/shared/terminal/src/sequence.rs:124-129 | skips every stage from the position on and exhausts the sequence; the slice is in bounds |
| TaskBuilders.TaskSequence.Finish | components/shared/terminal/src/sequence.rs:139-144 | skip the rest, then complete |
| Builders.StartIsFresh | components/shared/terminal/src/task/builder.rs:197-250 | a started task has its declared stages in order, empty sets and no verdict, in either mode |
| Builders.BlockIsAsDeclared | components/shared/terminal/src/task/builder.rs:105-242 | a titled head, one entry per declared step on consecutive new nodes (a waiting stage or a divider), and a blank spacer exactly when asked for in interactive mode; in plain mode no layout change |
| Builders.StartRunsAutoStages | components/shared/terminal/src/task/builder.rs:244-249 | after `start` exactly the stages declared to run automatically are running, all others wait |
| Builders.SequenceStepsAreDeclared | components/shared/terminal/src/sequence/builder.rs:43-64 | one builder step per declared one, in order: a stage under the next generated id that does not run by itself, or a group |
| Builders.GeneratedIdsDistinct | components/shared/terminal/src/sequence/builder.rs:43-53 | generated ids are pairwise distinct |
| Builders.BuiltSequenceRefinesAutomaton | components/shared/terminal/src/sequence/builder.rs:43-79 | every run of every built sequence is the linear automaton |
| SequenceValues.SequenceRefinesAutomaton | components/shared/terminal/src/sequence.rs:68-145 | the position, both sets, every stage's display with the message of its call, and the verdict are those of the automaton; stages ahead are in neither set |
| SequenceValues.OutcomesAreLinear | components/shared/terminal/src/sequence.rs:7-15 | outcomes are (done or skipped)*, or that, one failure, and skips "due to previous error" to the end |
| SequenceValues.StaysBounded | components/shared/terminal/src/sequence.rs:36-145 | over any task whatever, position and slices stay within the stages, and a non-empty sequence is exhausted only with its task finished |
| SequenceValues.ExhaustedIsFinal | components/shared/terminal/src/sequence.rs:14-15 | once a non-empty sequence is exhausted no call changes anything, whatever task it was made from |
| SequenceValues.LookupsSucceed | components/shared/terminal/src/sequence.rs:36-58 | while a stage is current the task is unfinished and every stage of the sequence is found in it |
| SequenceValues.FinishMessageShown | components/shared/terminal/src/sequence.rs:131-144 | `finish` shows its message if and only if there is no stage (or the message is "success") |
| SequenceValues.RepeatedIdLeavesAutomaton | components/shared/terminal/src/sequence.rs:36-58 | with a repeated id, a run that leaves the automaton |
| SequenceValues.UsedTaskStaysFailed | components/shared/terminal/src/sequence.rs:36-79 | over a task that has failed, the sequence goes through any number of stages with `ok` and the root stays failed |
| SequenceValues.FailedStageMakesUsedTask | components/shared/terminal/src/task.rs:252-269 | failing one stage by its id makes such a task, with all its stages |
| SequenceValues.FreshAndDistinctExactly | components/shared/terminal/src/sequence.rs:36-58 | a sequence is the linear automaton in every run if and only if its task is fresh and its ids are pairwise distinct |
| Bisimulation.ModesAgreeOnTasks | components/shared/terminal/src/task.rs:80-171 | the same script and calls give the same sets, flag, verdict, stage displays and return values in both modes, over any two layouts |
| Bisimulation.ModesAgreeOnSequences | components/shared/terminal/src/task/builder.rs:105-250 | the same for sequences, with equal positions |
| Simulation.DoTaskLeads | components/shared/terminal/src/task.rs:203-370 | each operation of an interactive task is a legal run of the display machine on its block |
| Simulation.ApplyLeads | components/shared/terminal/src/sequence.rs:68-144 | each operation of a sequence is one too, without any guard |
| Engines.InvokeInOrder | components/shared/terminal/src/engine.rs:82-121 | each public call keeps whole blocks in creation order and the anchor at the end of the newest |
| Engines.HistoryDisplaysInCreationOrder | components/shared/terminal/src/engine.rs:82-121 | after every call of a single-threaded history the display is exactly the blocks in creation order, and the anchor is the last visible bar |
| Engines.CompletedTaskLeavesItsHead | components/shared/terminal/src/task.rs:109-121 | the visible list is what the earlier blocks show, the head of the successful task or sequence, and what the later blocks show |
| EngineEffects.CreatedBlockIsAppended | components/shared/terminal/src/engine.rs:82-121 | every creating call adds one handle and shows its row of new bars below everything visible: one for a space or step, head, steps and spacer for a task or sequence |
| EngineEffects.FailedStepIsReported | components/shared/terminal/src/step.rs:37-41 | a failed step shows one report right below its bar |
| EngineEffects.StepEventIsQuiet | components/shared/terminal/src/step.rs:27-45 | other events change a step's status and nothing visible |
| EngineEffects.FailedStageIsShown | components/shared/terminal/src/task.rs:252-269 | the visible list after a failed stage is the one before with the report right below the stage's bar |
| EngineEffects.FailedSequenceIsShown | components/shared/terminal/src/sequence.rs:90-99 | the same for the current stage of a failed sequence |
| EngineEffects.QuietCallIsNotShown | components/shared/terminal/src/task.rs:203-242 | a call that neither fails nor completes moves nothing visible |
| Engines.BulkFailureExactAtApi | components/shared/terminal/src/task.rs:330-340 | a bulk failure keeps whole blocks if and only if the task has no entries or is not the newest block |
| Kernels.RunOsIsLater | components/sdk/sys/src/metadata.rs:16-21 | any steps of the system keep PIDs and start times of instances, and the dead stay dead |
| Kernels.SameStartSameInstance | components/sdk/sys/src/metadata.rs:16-21 | two readings of a PID with equal start times are of one instance, which held the PID all along |
| Kernels.PidCanBeReused | components/sdk/sys/src/metadata.rs:4-10 | a PID whose process exited and was reaped can go to a new instance |
| Processes.Bind | components/sdk/sys/src/process.rs:141-156 | Ok exactly when three undisturbed actions find a matching name and equal readings; then the pidfd is the one instance both readings describe; each error says what was seen |
| Processes.ChangeIsDetected | components/sdk/sys/src/process.rs:141-156 | a bind never succeeds when the PID changes hands, or its process is renamed, between the readings |
| Processes.NamesMatchUpToAsciiCase | components/sdk/sys/src/process.rs:76-85 | two names match exactly when they differ at most in the case of ASCII letters |
| Processes.BindAfterSpawn | components/sdk/sys/src/process.rs:170-194 | every bind says what it saw; a mismatch and a process not running are retried, at most 20 binds with 19 pauses of 5 ms; stop at the first success or other error, else the twentieth transient error, which is always there |
| Processes.OpenPidfd | components/sdk/sys/src/sys/linux.rs:124-136 | the instance that holds the PID at that moment |
| Processes.SendSignal | components/sdk/sys/src/sys/linux.rs:43-59 | the signal reaches the instance behind the pidfd, or none |
| Processes.Wait | components/sdk/sys/src/sys/linux.rs:195-225 | true only after exit; false only after all polls found it running, one for a zero timeout |
| Processes.SignalAndWait | components/sdk/sys/src/process.rs:302-328 | probe, signal, wait for the given timeout, in this order and to this instance only; success or not-running means exited |
| Processes.KillProcess | components/sdk/facade/src/handles/kill.rs:59-131 | over every interleaving: only the bound instance is signalled; with a grace period [], [TERM] or [TERM, KILL], without [] or [KILL]; KILL after TERM only after the grace period ran out; Ok means exited, no response means the forced timeout ran out, anything else an I/O error |
| Processes.BindAndKill | components/sdk/facade/src/handles/kill.rs:59-131 | bind and kill together: the signals reach only the instance the first reading described |
| MacProcesses.CompareMeans | components/sdk/sys/src/sys/macos.rs:80-87 | what each answer of a check says about the bound instance |
| MacProcesses.ReusedIsRightUnlessRenamed | components/sdk/sys/src/sys/macos.rs:78-87 | a report of reuse is right exactly when the bound instance no longer holds the PID; otherwise it was renamed |
| MacProcesses.RenameIsReportedAsReuse | components/sdk/sys/src/sys/macos.rs:190-193 | the failing input for the documented meaning of `Reused` |
| MacProcesses.Wait | components/sdk/sys/src/sys/macos.rs:193-219 | at most ceil(T/100 ms)+1 checks, no sleep over 100 ms and T of sleep in all asked for; false only at or after the deadline with the process there; true only if it is gone |
| MacProcesses.SendSignal | components/sdk/sys/src/sys/macos.rs:134-161 | a signal is sent exactly when the bound instance holds the PID under its name, and then to it |
| MacProcesses.SignalAndWait | components/sdk/sys/src/process.rs:302-328 | probe, signal, wait on the bound instance only; a renamed one gets no signal |
| MacProcesses.KillProcess | components/sdk/facade/src/handles/kill.rs:59-131 | the escalation reaches only the bound instance; Ok means it is gone; a renamed process is reported as reused, is sent nothing and still holds its PID |
| LockFiles.ReadDenotes | components/sdk/facade/src/builder.rs:208-211 | only digits below 2^32 between whitespace, perhaps after a plus sign, are read as a PID |
| LockFiles.DenotedIsRead | components/sdk/facade/src/builder.rs:208-211 | and all of those are read, as that PID |
| LockFiles.WrittenPidIsRead | components/sdk/facade/src/builder.rs:208-211 | a printed PID, with any whitespace after it, is read back |
| LockFiles.ReadIs32Bits | components/sdk/facade/src/builder.rs:208-211 | a printed number between whitespace is read exactly up to 4294967295 |
| LockFiles.LineEndsAreWhitespace | components/sdk/facade/src/builder.rs:210-210 | newlines, carriage returns, tabs and spaces are trimmed, visible ASCII characters are not |
| LockFiles.OtherTextsAreNotRead | components/sdk/facade/src/builder.rs:208-211 | an empty text, or a trimmed one that has anything but digits and starts without a plus, is no PID |
| Recovery.Connect | components/sdk/facade/src/builder.rs:57-206 | the whole decision on what was seen of lock, socket, connection and content, each at its own moment: Offline exactly without artefacts, Connected exactly when the socket answers, Hung exactly when the named process could be bound; Stale with a readable PID only when that PID was seen free or taken by another process; an error only from I/O; undisturbed, the classification of the world |
| Recovery.RuntimeDir.Clean | components/sdk/facade/src/handles/stale.rs:48-90 | socket first; the lock goes only when the socket is gone; success leaves nothing |
| Recovery.CleanedExactly | components/sdk/facade/src/handles/stale.rs:48-90 | the socket is left exactly when its deletion is refused, success needs both deletions, and the lock is gone exactly after a success |
| Recovery.CleanupsShrink | components/sdk/facade/src/handles/stale.rs:48-90 | over any series of cleanups with any failures artefacts only shrink, the lock outlives the socket, and where a lock was nothing is left exactly after a success |
| Recovery.CleanupsLowerTheRank | components/sdk/facade/src/builder.rs:71-93 | cleanups never make the next `connect` worse unless a daemon is connected; after a success it is Offline whatever serves or runs |
| Recovery.KilledIsStaleOnceReaped | components/sdk/facade/src/builder.rs:135-163 | after a kill `connect` is down one rank if and only if the process has been reaped |
| Recovery.ClimbLowersTheRank | components/sdk/facade/src/handles/kill.rs:125-131 | each undisturbed successful kill, cleanup or launch puts the next `connect` exactly one rank lower |
| Recovery.LadderEndsExactly | components/sdk/facade/src/builder.rs:57-206 | some successful action exists exactly until a daemon is connected, or no PID is free for a launch |
| Recovery.LadderIsShort | components/sdk/facade/src/builder.rs:57-206 | every run of successful actions from a sound world has as many steps as ranks it goes down, at most three |
| Recovery.LadderReachesConnected | components/sdk/facade/src/handles/offline.rs:31-76 | from every sound world with a daemon to kill or a free PID, at most three successful actions end with a connected daemon |
| Recovery.Recover | components/sdk/facade/src/handles/kill.rs:125-131 | connect, kill, clean: on the way up from Hung nothing is deleted before the bound process exited; the next `connect` is on no higher rank than the one reached, always after a cleanup, else when undisturbed and reaped |
| Launches.Launch | components/sdk/facade/src/handles/offline.rs:31-76 | a spawn fails exactly when the binary or its binds do; at most 40 attempts and 39 pauses of 50 ms, stop at the first success; exactly when all 40 fail the child is killed: SIGKILL was sent, unless it had exited or an I/O error came first |
| Launches.LaunchedIsFound | components/sdk/facade/src/builder.rs:95-149 | once it has written its PID, the next `connect` finds the launched process: connected exactly while its socket answers, else hung, as this very process, exactly until it is reaped |
| Sessions.ControlHandle.SetRevision | components/sdk/facade/src/handles/control.rs:27-29 | the revision sent from now on |
| Sessions.UncommittedHandle.InnerCommit | components/sdk/facade/src/handles/uncommitted.rs:89-108 | success exactly when accepted and answered; then the new revision; else the handle is what it was, whatever the daemon did |
| Sessions.UncommittedHandle.Commit | components/sdk/facade/src/handles/uncommitted.rs:76-87 | the control handle on the new revision, or the same handle back with revision and manifest unchanged |
| Sessions.UncommittedHandle.Discard | components/sdk/facade/src/handles/uncommitted.rs:125-127 | the control handle on the old revision |
| Sessions.CommitIsAttempt | components/sdk/facade/src/handles/uncommitted.rs:76-108 | a commit in a run changes session and daemon as the handle object does; a failed one leaves the session as it was |
| Sessions.HandshakeRefusesOnlyUnspecified | components/sdk/facade/src/handles/connected.rs:112-125 | only an unspecified or unknown state is refused |
| Sessions.DeliveredHandshakeOpens | components/sdk/facade/src/handles/connected.rs:92-126 | a delivered handshake opens a session on any workspace, with the offered manifest to commit exactly when the daemon's differs or it knew none |
| Sessions.HandshakeStep | components/sdk/facade/src/handles/connected.rs:92-126 | other sessions stay; the session exists exactly when answered in full, on the daemon's revision, ready exactly when the daemon has the offered manifest |
| Sessions.RecheckStep | components/sdk/facade/src/handles/control.rs:156-160 | a recheck asks the daemon again for the session's workspace, with the same outcome as a handshake |
| Sessions.CommitStep | components/sdk/facade/src/handles/uncommitted.rs:76-108 | a commit that arrives on the current revision installs the offered manifest, and the session moves on exactly when it hears so; any other changes nothing |
| Sessions.DiscardStep | components/sdk/facade/src/handles/uncommitted.rs:125-127 | ready on the same revision, daemon and other sessions untouched |
| Sessions.UpStep | components/sdk/facade/src/handles/control.rs:49-73 | runs on the daemon's state exactly when it arrives on the current revision; sessions and daemon stay |
| Sessions.StepKeepsInv | components/sdk/facade/src/handles/connected.rs:92-126 | a revision held by a session names the state it last saw; kept by every request of every session |
| Sessions.NoUpdateIsLost | components/sdk/facade/src/handles/uncommitted.rs:76-127 | in every run each accepted commit replaces exactly the state its session last saw by what the session offered, and each accepted `up` runs on the state its session last saw, which unless it discarded is its own manifest |
| Sessions.CommitsFormAChain | components/sdk/facade/src/handles/uncommitted.rs:70-75 | no revision is replaced twice, so a commit whose reply got lost is never applied again |
| Sessions.AcceptedIffUnchanged | components/sdk/facade/src/handles/control.rs:151-160 | a request is accepted if and only if the workspace is still in the state the session last saw |
| Durations.ParseOfFormat | components/sdk/core/src/utils.rs:23-46 | a printed duration parses back to the rounded one |
| Durations.FormatOfParse | components/sdk/core/src/utils.rs:23-46 | every well-formed text, with sub-fields in range and no leading zeros, is what is printed for its value |
| Durations.Rounded | components/sdk/core/src/utils.rs:23-46 | never more than the duration; exact below an hour, within 60 s below a day, within an hour above |
| Durations.PrintAlikeExactly | components/sdk/core/src/utils.rs:23-46 | two durations print alike if and only if they round to the same one |

## Left out

- Drawing: styles, templates, spinners, ANSI codes, report wrapping, separators, elapsed times. A renderer is
  reduced to the last event it was given.
- `finish_silently` and `finish_children` (components/shared/terminal/src/renderer.rs:390-397): they only stop
  a spinner.
- The internals of indicatif, bars added to the `MultiProgress` by others, and two engines over one
  `MultiProgress`.
- MacProcesses.SendSignal: a PID that changes hands between the identity check and the signal is assumed away.
- The Windows process handle and its name normalisation.
- gRPC, IPC sockets, stream wrappers, `down`, `status` and task streams: plumbing, or requests without a
  revision check.
- The daemon itself, and the remark that it treats an already applied commit as a no-op
  (components/sdk/facade/src/handles/uncommitted.rs:72-74): the model's daemon rejects such a commit.
- Error text, logging, path discovery and `now_ms`.
- Recovery.Recover: composes `connect`, `kill` and `clean` as their handle types prescribe; no single function
  of the repository does this.
- Sessions.NoUpdateIsLost: revisions are assumed fresh per workspace for ever; a daemon that forgets its
  revisions on a restart is not modelled.
