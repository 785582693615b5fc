# libinger, verified

libinger runs an ordinary function as a *timed function*: a timer signal pauses it when its budget is used up, and it can be resumed later where it stopped. This project models the protocol that makes that work, the resources it lives on, and the compiler helpers that come with it, and proves what they promise.

| files | what they model |
|---|---|
| `Programs.dfy` | the timed function as its author wrote it, never interrupted: the reference that slicing must be invisible against |
| `Machine.dfy` | `resume`, `switch_stack`, `schedule`, `pause`, `stamp`, `enable_preemption`, `disable_preemption`, `defer_preemption` and `thread_setup`, one micro-step at a time, with the handler `preempt` able to land between any two steps at which the signal is deliverable |
| `Preemption.dfy` | the same functions as imperative code on the thread's variables, every write of which is recorded: the record is the machine's micro-steps, one for one and in order |
| `MachineInvariant.dfy`, `MachineProofs.dfy`, `MachineFrame.dfy` | the inductive invariant, one clause per program point, and that every step keeps it |
| `Lifecycle.dfy`, `Accounting.dfy`, `LifecycleProofs.dfy` | any number of timed functions of one thread, launched, resumed, dropped, cancelled and erased, over the pools of groups, thread-control blocks and stacks |
| `Faults.dfy` | exactly when each step fails, in any state whatsoever |
| `Calls.dfy` | what each call achieves, told from the worlds before and after it |
| `Theorems.dfy`, `Progress.dfy`, `Slices.dfy`, `ZeroBudget.dfy`, `Witnesses.dfy` | what follows for every run: what never happens, what always does, how long a slice is, and runs that show what can |
| `Pools.dfy` | the reuse pool |
| `Tcb.dfy` | thread-control blocks and the FS register |
| `Signals.dfy` | the assignment of preemption signals to kernel threads, and their timers |
| `Futures.dfy` | the preemptive future and its channel |
| `Rewriting.dfy`, `IngercTs.dfy`, `Text.dfy`, `IngercFile.dfy` | the LLVM IR rewriter: its loop, its text, and the cutting up of a file |
| `IngercCpp.dfy` | the moving of exception-range labels |

A *run* (`Lifecycle.IsRun`) is any sequence of calls by the thread's owner and events of the machine: mainline steps, deliveries, timer ticks and clock readings, in any order that is possible. The theorems are about every world of every run: every program, budget, clock and interleaving.

What libgotcha, libtimetravel and the kernel do is taken as follows. A group builder gives out each group once and then fails. `swap` exchanges contexts, returning from a handler restores the context's mask, and a signal is masked inside its own handler. Blocking, pending and delivery follow section 2.4.1 of the System Interfaces volume of POSIX.1-2017; a pending signal that is unblocked is delivered before `pthread_sigmask` returns. That libtimetravel's jump delivers one before it goes on is not assumed. The hook runs after each outermost nonpreemptible call, and returning from `schedule` resumes the call site.

Every fault of the protocol that the code can detect, by an assertion, `expect`, `abort`, a `RefCell` borrow or an unchecked unwrap, is a fault of the machine or the lifecycle, with three exceptions. Renewing a group is taken to succeed (src/linger.rs:114). The `expect` of `launch` (src/linger.rs:185) fails exactly as `Theorems.LaunchFailsIffAllGroupsAreHeld` says, and the `expect` on `assign_signal` (src/preemption.rs:202) as `Signals.AssignFailsIffAllSignalsAreHeld` says.

Where the code and its documentation disagree, the model follows the code:

- The documentation of `resume` says that a budget of 0 makes it a no-op. The code has no such check: `Witnesses.ZeroBudgetRuns` is a run in which the function takes a step, and `ZeroBudget.ZeroBudgetStepsIff` says at the call exactly when it can.
- `launch` and `resume` say that the largest budget runs the function to completion. `Theorems.LargestBudgetIsUnlimited` says when it does, and `Progress.LastReadingPauses` that the last reading of the clock ends it.
- A slice can be paused before its budget is used up, since the sum of budget and clock wraps around. `Witnesses.BudgetCanBeCutShort` is such a run, and `Witnesses.BudgetIsSureIff` says exactly when a caller can count on the budget: that the sum fits at the call is not enough.
- A timeout can be reported as a yield. `Witnesses.TimeoutCanLookLikeYield` is such a run, and `Theorems.YieldedIffPauseCalled` gives the exact condition; a preemptive future is then not woken (`Theorems.WakeIsLostIff`).
- A poll of a preemptive future can wait for ever. `Futures.SecondPollCanBlock` is the shortest such run, and `Futures.SendBlocksIff` says exactly when.
- `ingerc.ts` loses text of some files. `IngercFile.ALostFunction` is such a file, and `IngercFile.NothingLostIff` says exactly which.
- `ingerc.cpp` fails on some functions. `IngercCpp.IndirectCallAfterLabel`, `IndirectCallBeforeLabel` and `CfiAfterLabel` are such functions, and `IngercCpp.Relocate` says exactly which.

## Model

| member | source | states |
|---|---|---|
| Theorems.NothingEverFails | src/linger.rs:216-276 | in no world of any run has an assertion, `expect`, unchecked unwrap, `RefCell` borrow or `abort` of the protocol failed, wherever the handler landed; not among them are the renewal of groups and the `expect`s on `assign_group` and `assign_signal` |
| Faults.MainCrashesIff | src/linger.rs:309-416 | in any state, reachable or not, a mainline step fails exactly if `SIGNAL` or `TASK` is borrowed where that is not possible, `SIGNAL` is missing where it is needed, there is no context to jump to or the wrong one, or the function is bootstrapped twice or never, called again too early, or paused outside the shared group |
| Faults.HandlerCrashesIff | src/linger.rs:419-468 | the handler fails exactly if `SIGNAL` is being replaced, or it is to pause and a borrow or the lack of a call site is in the way |
| Theorems.CallersAreNotPreemptible | src/linger.rs:107-117 | whoever launches, resumes or drops is in the shared group, as all three assert |
| Theorems.DeferredOnlyWhenMasked | src/preemption.rs:69-116 | `DEFERRED` is only ever set while the preemption signal is blocked, also in the windows inside `enable_preemption`, `disable_preemption` and `defer_preemption` |
| Theorems.OwnCodeIsPreemptible | src/preemption.rs:46-83 | whenever the function runs its own code, the signal is unblocked, nothing is deferred, `SIGNAL` is set and the private group is current |
| Theorems.HandlerIsSafe | src/linger.rs:419-468 | the handler only runs over the timed function and knows its signal; when it pauses, there is a call site to return to, no saved `errno`, a stamped deadline, and no conflicting borrow of `TASK` or `SIGNAL` |
| Theorems.SliceIsNeverStuck | src/linger.rs:309-388 | as long as a slice is not over, either a mainline step or the handler can go next |
| Theorems.OwedPauseComesFirst | src/preemption.rs:69-76 | once a pause is owed, no sequence of events contains a step of the function's own code before control is back at the call site |
| Theorems.NoPreemptionIsLost | src/linger.rs:429-467 | after a tick handled at or past the deadline, the function takes no further step of its own code before it is paused or done, beyond the nonpreemptible call in progress |
| Progress.TickPausesAtOnce | src/linger.rs:429-452 | a tick at or past the deadline, while the function runs its own code, can be delivered and pauses it on the spot, with its place, registers and `errno` saved |
| Progress.OwedPauseHappens | src/preemption.rs:69-76 | once a pause is owed, outside library calls, every possible sequence of events with more than a fixed number of mainline steps and deliveries comes back to the call site, whatever ticks and clock readings lie between |
| Progress.OverheadIsBounded | src/linger.rs:309-416 | from every world of every run, every possible sequence of events with no delivery and no step of the function has at most 30 mainline steps: the protocol never goes round in circles |
| ZeroBudget.FirstStepIff | src/preemption.rs:74-76 | when `schedule` has unblocked the signal, the function can take a step before it is paused exactly unless a tick waits past the deadline |
| ZeroBudget.ZeroBudgetStepsIff | src/linger.rs:200-276 | what a `resume` with a budget of 0 can do, told from the continuation and the pending signal at the call: a function that was never called, or was paused while the signal was being unblocked, can take a step before it is paused again exactly if no tick waits; one paused after it had returned cannot; one paused anywhere else can |
| ZeroBudget.NewSliceStepsIff | src/linger.rs:391-416 | the first of these, from any point of a first slice on the way to the function |
| ZeroBudget.PausedStepsIff | src/linger.rs:338-370 | the others, from any point of a later slice before the jump |
| Witnesses.ZeroBudgetRuns | src/linger.rs:200-276 | a run of `launch` and `resume` with budgets of 0 in which the function takes a step |
| Theorems.PauseIsTakenInHook | src/linger.rs:481-488 | the pause that `pause()` requests is taken in the return hook of that call, marked as a yield, and counted once |
| Theorems.EachPauseCallPausesOnce | src/linger.rs:481-488 | calls of `pause()` and the pauses they cause are equal in number at every point but between a call and its pause, where they differ by that one, whatever ticks arrive |
| Theorems.PausedSlice | src/linger.rs:429-440 | of a slice that was paused: it was not paused before its stamped deadline unless `pause()` was called, and `yielded` says whether the deadline was zero |
| Theorems.BudgetIsHonoured | src/linger.rs:471-477 | if stamp time plus budget fits in 64 bits, a slice not ended by `pause()` is never paused before that |
| Slices.BudgetFromTheCall | src/linger.rs:200-256 | a slice of `launch` or `resume` that is paused and has not entered `pause()` has lasted at least the budget of the call, counted from the call, if the clock at the call plus twice the budget is at most 2^64 |
| Witnesses.BudgetIsSureIff | src/linger.rs:471-477 | and only then can a caller count on it: for every clock and budget at the call, all such slices last as long as the budget exactly if clock plus twice the budget is at most 2^64 |
| Witnesses.BudgetCanBeCutShort | src/linger.rs:471-477 | for every other clock and budget, a run with a slice that is paused before that |
| Slices.DeadlineIsNear | src/linger.rs:471-477 | whenever the function runs its own code, its deadline is no further from any earlier such point of the slice than the budget |
| Slices.BudgetRunsOut | src/linger.rs:429-452 | once it has run for the budget, any tick pauses it on the spot |
| Theorems.LargestBudgetIsUnlimited | src/linger.rs:471-477 | with the largest budget, a slice that called `pause()` ends paused, and one that ends paused called it or was still running at the last reading of a 64-bit clock |
| Progress.LastReadingPauses | src/linger.rs:430-431 | a tick at that reading does pause it |
| Theorems.StampIsExactIff | src/linger.rs:471-477 | the deadline is now plus the budget exactly if that fits in 64 bits; otherwise it wraps, or stays a raw budget |
| Theorems.StampIsZeroIff | src/linger.rs:471-477 | the deadline comes out as zero exactly at clock 0 with no budget, or when the sum is 2^64 |
| Theorems.YieldedIffPauseCalled | src/linger.rs:437 | a paused function reports that it yielded if and only if it called `pause()` in that slice, exactly unless its stamp came out as zero |
| Theorems.WakeIsLostIff | src/future.rs:82-88 | of the slices that timed out, a preemptive future is not woken after just those whose stamp came out as zero |
| Witnesses.TimeoutCanLookLikeYield | src/linger.rs:437 | a run in which a function that never called `pause()` is reported to have yielded |
| Theorems.SlicingIsTransparent | src/linger.rs:309-388 | wherever a function has got to over all its slices, it sees registers and `errno` as after as many steps of its uninterrupted run |
| Theorems.SlicesContinue | src/linger.rs:309-388 | from any world to any later one, a function is never restarted, rewound or exchanged |
| Theorems.DeliveredOnceAndRight | src/linger.rs:165-183 | every function of every world was called at most once, its outcome is delivered at most once and is the one its uninterrupted run ends with, and `is_complete` always means completion |
| Calls.ResultIsDelivered | src/linger.rs:257-275 | when a slice has run the function to its end, `resume` leaves exactly the outcome of the function's uninterrupted run, a completion with its value or poison, delivers it once, gives back group and block, the group clean, and touches no other timed function |
| Calls.DeliversWhatWasLaunched | src/linger.rs:152-197 | whatever is ever delivered for a launched function is what the program given to `launch` ends with when run alone |
| Calls.PausedIsKept | src/linger.rs:257-259 | when a slice has been paused, the continuation keeps its group, block and function, and has the task with the saved `errno` and context |
| Calls.ResumeRuns | src/linger.rs:213-256 | `resume` runs the continuation's own task and function, on its own block and group, with the budget given, and keeps a waiting tick |
| Calls.LaunchRunsIff | src/linger.rs:185-197 | `launch` adds one continuation, of the program given and not called yet, exactly unless every group is held, and runs it at once exactly if the budget is not 0 |
| Calls.GivingUpGivesBack | src/linger.rs:94-117 | dropping or cancelling a live continuation leaves its group free and clean, its block free, and its stack, if any, free; it is no continuation any more, complete exactly if cancelled, and every other one is as before |
| Calls.GivingUpMakesRoom | src/linger.rs:94-117 | and the next `launch` succeeds |
| Calls.NothingLeftToDo | src/linger.rs:200-211 | resuming, dropping or cancelling what is no continuation changes nothing at all |
| Theorems.CompletedStaysSo | src/linger.rs:200-211 | once a function has completed, panicked, or been dropped or cancelled, nothing that is done changes it again |
| Theorems.UninstalledBlocksAreClean | src/linger.rs:221-276 | a thread-control block that is not installed has no bootstrap, a default task, no signal and no deferral, however the last slice on it ended, and its slot is full |
| Theorems.LiveOwnsOneOfEach | src/linger.rs:119-129 | a live continuation that is not running has a group and a thread-control block, and a stack exactly when it has started; one without a stack was never called |
| Theorems.OwnershipIsExact | src/linger.rs:185-191 | in every world, two live continuations, the running one included, never share a group, block or stack, and each has a group and a block |
| Theorems.AssignedGroupIsClean | src/linger.rs:107-117 | no group is handed out while it holds a function that has not returned or has left a context behind, or while it has another owner |
| Theorems.HalfRunIffPaused | src/linger.rs:107-117 | between slices, a group holds a half-run function exactly if the task of the continuation that owns it has an `errno`, which is what dropping it goes by |
| Theorems.PoolsNeverGrow | src/stacks.rs:18-34 | after preallocation to the group limit, the builders of stacks and thread-control blocks are never called again |
| Theorems.LaunchFailsIffAllGroupsAreHeld | src/groups.rs:12-22 | `launch` fails exactly when as many functions as there are groups are live |
| LifecycleProofs.EveryWorldIsSound | src/linger.rs:107-117 | every world of every run keeps the books of groups, blocks and stacks, and the machine's invariant |
| LifecycleProofs.StackIsFree | src/stacks.rs:18-34 | a continuation that is about to take a stack holds a group and no stack, so a stack is free |
| LifecycleProofs.GroupAssignment | src/groups.rs:12-22 | `assign_group` fails exactly when every group is held, and otherwise the group is one that nobody had |
| LifecycleProofs.EraseIsIdentity | src/linger.rs:63-87 | the value after erasing the closure's type is the value before |
| MachineProofs.StepKeepsInv | src/linger.rs:309-388 | every mainline micro-step, tick, clock reading and delivery keeps the invariant |
| MachineProofs.HandlerPauses | src/linger.rs:429-452 | due in the private group, the handler saves `errno` and the interrupted context, disables preemption and ends at the call site |
| MachineProofs.HandlerLeavesNoTrace | src/linger.rs:453-455 | before the deadline, the handler changes nothing, `errno` included |
| MachineProofs.HandlerDefers | src/linger.rs:457-467 | in a nonpreemptible call, the handler leaves the signal masked and `DEFERRED` set, and the invariant holds |
| MachineProofs.StrangeSignalIsMasked | src/linger.rs:461-466 | a signal that is not the thread's own is masked by the handler, and nothing else changes, `errno` included |
| MachineProofs.MaskedOutside | src/preemption.rs:187-226 | outside the timed function, the signal is masked whenever its timer runs |
| MachineFrame.StepFrame | src/linger.rs:233-235 | a step changes the stack pool only by taking the slice's one stack or giving it back, and moves the function forward by at most one step |
| Preemption.TraceIsSteps | src/preemption.rs:46-116 | a record in which each state follows from the one before is the machine's states after 0, 1, 2, ... micro-steps |
| Preemption.PreemptibleThread.Preempt | src/linger.rs:419-468 | the handler's code, branch by branch, has the effect of the machine's delivery, crashes included |
| Preemption.PreemptibleThread.PauseFunction | src/linger.rs:431-452 | its pausing branch, up to the return into the call site |
| Preemption.PreemptibleThread.DeferUnderHandler | src/preemption.rs:103-116 | deferring beneath the handler masks the signal in the interrupted context and sets the flag |
| Preemption.PreemptibleThread.StampDeadline | src/linger.rs:471-477 | the deadline becomes the stamp of the budget, with its overflow and wrap-around |
| Preemption.PreemptibleThread.EnablePreemption | src/preemption.rs:46-83 | every write, in order, is the machine's next micro-step: group first, then a deferred signal sent again, then unmasking; fails exactly if a signal is to be read and there is none |
| Preemption.PreemptibleThread.Pause | src/linger.rs:481-488 | every write, in order, is the machine's next micro-step: deadline, then mask, then flag |
| Preemption.PreemptibleThread.DisablePreemption | src/preemption.rs:85-94 | every write, in order, is the machine's next micro-step: group, then mask, then `SIGNAL`, then `DEFERRED` |
| Pools.EveryRunConserves | src/reusable.rs:29-71 | for every interleaving of acquiring, dropping and preallocating, built values are pooled plus held values, as a multiset, also when the builder fails part-way |
| Pools.LastInFirstOut | src/reusable.rs:29-71 | a value given back is the next one to be had, and then the pool is as it was |
| Pools.PreallocConserves | src/reusable.rs:91-103 | preallocating neither loses nor invents a value |
| Pools.PreallocShape | src/reusable.rs:91-103 | preallocating leaves the untouched prefix, then the top values reversed, then the new ones in build order, and succeeds exactly if no builder call fails |
| Pools.AttemptsShape | src/reusable.rs:96-98 | taking several values pops what there is, topmost first, and calls the builder only for the rest |
| Pools.SharedPool.TryFrom | src/reusable.rs:29-41 | pops the last value, or else builds one |
| Pools.SharedPool.Push | src/reusable.rs:62-71 | a dropped value goes on top |
| Pools.SharedPool.PreAllocate | src/reusable.rs:91-103 | takes all, then drops all, and reports the first failure |
| Tcb.InstallUninstallRoundTrip | src/tcb.rs:50-103 | installing an owned block and uninstalling it restores FS, frees nothing, and changes just words 6 and 90 of just that block, which become those of the block that was current |
| Tcb.GuardDropFreesAndRestores | src/tcb.rs:146-169 | dropping a guard runs the block's destructors while it is installed, restores FS to the parent, and frees the block |
| Tcb.DropFreesAndRestores | src/tcb.rs:111-128 | dropping an owned block installs it, runs its destructors, frees it once and leaves FS where it was |
| Tcb.EveryNestIsSound | src/tcb.rs:50-169 | over every properly nested sequence of creations, installs, uninstalls and drops, every demand of every operation is met and the books balance |
| Tcb.FsIsAlwaysSafe | src/tcb.rs:146-169 | FS always points to a live block, and each block is freed at most once, right after its destructors ran on it |
| Tcb.Thread.New | src/tcb.rs:25-48 | a fresh block whose words 0 and 2 point at itself and whose others are the image's; no other block changes |
| Tcb.Thread.InstallUnguarded | src/tcb.rs:58-103 | FS moves to the block, an owned one inherits two words, and the previous block is returned, borrowed |
| Tcb.Thread.InstallGuarded | src/tcb.rs:50-56 | the guard owns the installed block and borrows its parent |
| Tcb.Thread.UninstallGuard | src/tcb.rs:140-144 | the block leaves its guard alive, and FS goes back to the parent |
| Tcb.Thread.DropTheTcb | src/tcb.rs:111-128 | dropping builds a guard that is itself dropped, and that terminates |
| Tcb.Thread.DropTheGuard | src/tcb.rs:146-169 | destructors, then the parent, then the release |
| Signals.SignalsAreDistinctIff | src/signals.rs:26-49 | in every interleaving of threads, no signal is in two places exactly as long as the builder's counter has not wrapped around |
| Signals.ThreadsHaveTheirOwn | src/signals.rs:26-49 | two threads never have the same signal |
| Signals.AssignFailsIffAllSignalsAreHeld | src/signals.rs:26-49 | until the builder's counter wraps around, `assign_signal` fails exactly when 16 threads have a signal |
| Signals.TimersAreDistinct | src/preemption.rs:187-240 | if every timer could be deleted, at most 16 tick, on distinct signals, none of them free |
| Signals.GivenBackQuietIff | src/preemption.rs:229-240 | a signal that re-enters the pool has no timer any more exactly if its timer could be deleted |
| Signals.EveryTableIsAccounted | src/signals.rs:37-49 | signals built are signals pooled plus signals held by threads |
| Signals.Threads.ThreadSetup | src/preemption.rs:118-132 | a thread without a signal is first assigned one, the top of the pool or else the next of the table, and then its timer armed; on failure the signal goes back; a thread that has one keeps it, and no other thread is touched |
| Signals.Threads.TearDown | src/preemption.rs:229-240 | between two states, the timer is deleted while the signal is still out of the pool |
| Futures.EveryFutureIsSound | src/future.rs:41-58 | in every run, items sent are items received plus items waiting, in order, and polls are yields plus cuts |
| Futures.CallsFollowItems | src/future.rs:44-50 | the i-th inner call follows the i-th item |
| Futures.YieldLeavesCuts | src/future.rs:71-95 | at each yield, the channel holds as many items as there were polls cut short |
| Futures.ReceiveNeverWaits | src/future.rs:44-46 | the inner loop never waits for an item |
| Futures.SendBlocksIff | src/future.rs:71-76 | a poll waits for room, and then for ever, exactly if an earlier poll was cut short, not counting the cut of a call still under way |
| Futures.SecondPollCanBlock | src/future.rs:71-76 | a poll that times out before the loop has received its item makes the next one wait for ever |
| Futures.ReadyIsWhatWasReturned | src/future.rs:44-58 | the value with which a future gets ready is what the last call of the polled function returned |
| Futures.PreemptiveFuture.Poll | src/future.rs:71-95 | sends once and runs one slice, or hangs if there is no room; ready with the value returned exactly when the function finished, failed exactly when `resume` did, pending otherwise, and woken exactly if it was cut short and `yielded` does not report a yield; inert after both |
| Rewriting.ProcessDefine | compiler/ingerc.ts:5-47 | the splicing loop, whose index moves along with its insertions, computes the line-by-line expansion with a cleanup block unless there was one |
| Rewriting.StripGivesOriginal | compiler/ingerc.ts:19-46 | deleting the inserted lines gives back the original body exactly |
| Rewriting.PartIsInPlace | compiler/ingerc.ts:21-33 | every return stands right after its own invoke and label |
| Rewriting.LabelNumbersDiffer | compiler/ingerc.ts:22 | no two returns get the same label number, although indices shift |
| Rewriting.EveryLineIsExplained | compiler/ingerc.ts:19-46 | every line of the result is an original one that is no return, or of the cleanup block, or an invoke, its label or the return they guard, in that order |
| Rewriting.BodyMeansTheSame | compiler/ingerc.ts:19-46 | for any epilogue function that returns: from any line, the rewritten body returns exactly when the original would if each return called that function first, with the same value and effects |
| Rewriting.MeansTheSame | compiler/ingerc.ts:5-47 | the same for the whole function, whose header may change |
| IngercTs.EpilogueComesBeforeReturn | compiler/ingerc.ts:19-33 | the same for the actual text, for whatever LLVM's instructions and the epilogue function do: exactly the lines that begin with `  ret` call it first, if the function has no `ingerc` labels and each such line is a `ret` instruction |
| IngercTs.EpilogueIsHeardOnce | compiler/ingerc.ts:19-33 | if only returns return, and the epilogue function emits something that nothing else does, every run that returns emits it exactly once, right before the return's own effects |
| IngercTs.RewritingKeepsMeaning | compiler/ingerc.ts:5-47 | if the epilogue function does nothing, the rewritten function returns exactly when the original does, with the same value and effects |
| IngercTs.ReturnsAreGuarded | compiler/ingerc.ts:21-33 | every line of the result that is `  ret`, or begins with that and a space, has the label `ingerc<n>:` right before it, and before that the invoke of the epilogue function to `%ingerc<n>`, unwinding to `%cleanup`, where n is the invoke's own index |
| IngercTs.NoOtherInvokes | compiler/ingerc.ts:21-33 | there is no invoke in the result but those, and those that were there |
| IngercTs.CleanupIsThere | compiler/ingerc.ts:34-44 | the result has as many `cleanup:` lines as the function, or one if that has none |
| IngercTs.CleanupComesLast | compiler/ingerc.ts:37-44 | and that one begins a landing pad that resumes, right before the closing brace |
| IngercTs.HeaderGetsPersonality | compiler/ingerc.ts:6-17 | a header without a personality gets exactly the text of one, before its brace or before debug information that ends with it |
| IngercTs.ProcessLines | compiler/ingerc.ts:5-47 | the loop on the actual text, after which every return is guarded |
| IngercTs.LabelLineDeclares | compiler/ingerc.ts:22-32 | an inserted label line declares its own label and no other name |
| IngercTs.LabelIsOneName | compiler/ingerc.ts:22 | labels of different numbers are different |
| IngercTs.HeaderKeepsDefine | compiler/ingerc.ts:6-17 | the personality goes in after `define `, so that a header stays a header |
| IngercFile.NothingLostIff | compiler/ingerc.ts:74-87 | splitting and joining reproduces the file exactly if there is no end of a function before the first `define`, and after each exactly one, followed by text |
| IngercFile.EachFunctionIsRewritten | compiler/ingerc.ts:74-89 | every function of the file that is followed by text is replaced, in its place, by its processed lines joined, and the declaration of the epilogue function comes last |
| IngercFile.EachReturnIsGuarded | compiler/ingerc.ts:74-89 | in those lines, every return is guarded |
| IngercFile.LastFunctionIsLost | compiler/ingerc.ts:74-87 | of any file whose last function has nothing after its end, only the text between its `define` and its closing brace is left, whatever the rewriting does |
| IngercFile.ALostFunction | compiler/ingerc.ts:74-87 | a file of one function of which nothing is left |
| IngercFile.FunctionLinesShape | compiler/ingerc.ts:74-77 | the lines handed on always begin with a header and end with a closing brace alone |
| IngercFile.UnchangedFunction | compiler/ingerc.ts:82-87 | a function whose lines do not change is written as it was |
| IngercFile.SecondTimeIsRefused | compiler/ingerc.ts:68-72 | a file that has been processed is not processed again |
| Text.JoinSplit | compiler/ingerc.ts:74-87 | joining what was split gives back the text |
| Text.CopyIsFaithfulIff | compiler/ingerc.ts:74-87 | for any opening and closing separators, exactly when cutting up and putting together is faithful |
| IngercCpp.Relocate | compiler/ingerc.cpp:210-271 | for every function with one label of each kind, in order: succeeds exactly if the begin label is neither first in its block nor right after an indirect call, both searches end before any empty block, the first not at an indirect call, and a CFI instruction at which the second stops neither follows the end label nor begins a block; then every block keeps all its instructions but labels, in order, the stream is the old one with just the two labels moved, the begin label stands right after the range's first call if that makes the value and no such call stood before the label, and the end label has passed no drop call, return, tail call or CFI instruction and stands before one of the first three, or before the instruction that precedes a CFI instruction |
| IngercCpp.BeginSafeIff | compiler/ingerc.cpp:231-251 | when the begin label can be dealt with, told of the instructions and blocks alone |
| IngercCpp.EndSafeIff | compiler/ingerc.cpp:253-271 | when the end label can |
| IngercCpp.RangeIsKept | compiler/ingerc.cpp:210-271 | the begin label stays before the end label, all else stays in order, and what they bound runs from after the call that makes the value up to the drop call, return or tail call, or the instruction before a CFI instruction |
| IngercCpp.MoveBegin | compiler/ingerc.cpp:231-251 | the begin label goes after the first call if that uses the dropped type and no such call precedes the label; fails exactly if the label is first, there is an indirect call right before it or where the search stops, or the search meets an empty block |
| IngercCpp.MoveEnd | compiler/ingerc.cpp:253-271 | the end label goes before the drop call, return or tail call, or above the instruction before a CFI instruction; with the exact condition for success |
| IngercCpp.IndirectCallAfterLabel | compiler/ingerc.cpp:363-371 | a function on which the first search fails, for every dropped type |
| IngercCpp.IndirectCallBeforeLabel | compiler/ingerc.cpp:410-424 | one on which the look before the label fails |
| IngercCpp.CfiAfterLabel | compiler/ingerc.cpp:253-271 | one on which the second search fails, for every drop function |
| IngercCpp.MakingCallIsPassed | compiler/ingerc.cpp:231-251 | a call that makes the value is passed by the begin label |
| IngercCpp.TailCallStops | compiler/ingerc.cpp:253-271 | an indirect tail call is a return, and stops the end label right before it |
| IngercCpp.Walk | compiler/ingerc.cpp:426-440 | walking with `nextInst` finds the first instruction of the stream that stops it, across blocks, and gets nowhere exactly if an empty block comes first |
| IngercCpp.FindInst | compiler/ingerc.cpp:321-331 | finds the first instruction of the function that satisfies the predicate |
| IngercCpp.NextIsNext | compiler/ingerc.cpp:426-440 | `nextInst` is the successor in the stream, unless the next block is empty, and stops at the stream's end |

## Left out

- Errno propagation from library replacements to the calling library set (`errno_group`, src/preemption.rs:78-81): depends on symbol lookup in libgotcha. The model has one `errno` for the function and one for the shared group, and the handler's saving and restoring of both.
- The protocol between mainline code and handler is a state machine over values and not code on shared variables, because a handler has to be insertable between any two micro-steps. `Preemption.dfy` ties the code to it; `resume`, `switch_stack` and `schedule` are only modelled as micro-steps.
- Moving a paused function to another kernel thread: `schedule` keeps the signal of its first thread (src/linger.rs:401-405). Runs are of one kernel thread with any number of timed functions.
- System calls that fail inside `resume` (src/linger.rs:225, 235, 257-259), poisoned mutexes, and failed allocation.
- Debug builds, in which the addition in `stamp` panics instead of wrapping around.
- A clock that goes backwards: readings are non-decreasing and fit in 64 bits.
- What a library call finds in the shared `errno` before it writes it: library calls write it first.
- Dropping two continuations at the same time on two threads: the bound on thread-control blocks is for sequential runs.
- Installing a borrowed thread-control block as a guard: `resume` only installs owned ones.
- `PreemptionSignal::new` and its drop: which of the system calls fails, since each has the same effect on the signal.
- Theorems.NothingEverFails: does not model a group that cannot be renewed, because libgotcha is not part of this model; the `expect`s on `assign_group` and `assign_signal` can fail, and have their own exact conditions.
- Tcb.InstallUninstallRoundTrip: does not model the locale tables that `__ctype_init` sets up in thread-local storage.
- LifecycleProofs.EraseIsIdentity: does not model that the fields are read out of memory whose destructor is suppressed, because a value of the model has no address.
- IngercTs.RewritingKeepsMeaning: an epilogue function that unwinds, which the original function does not call; the original's own exceptional edges are jumps like any others.
- IngercCpp.Relocate: landing pads without a drop call or labels, for which the pass makes labels or destructor calls first; the LEA and NOOP around an epilogue call; registering the pass.
- src/timer.rs, internal/libsignal, src/profiler.rs, src/main.rs, src/force.rs, src/lifetime.rs, src/unfurl.rs and src/compile_assert.rs: thin wrappers, input and output, or one-line helpers.
- The benchmarks, tests and shell scripts.
