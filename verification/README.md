# Verified models of Hopter's demos

Dafny models of the parts of this repository whose behaviour is hardest to see from the code,
and proofs of what they promise.

**The soft lock** (`hopter/softlock-std-demo`). A caller that wins a compare-and-swap on `locked` gets
full access; one that loses only records its intent and flags it, and the holder's guard drains what was
flagged before and after it lets go. `SoftLock` models every atomic access as a step of a call with its own
program counter, for any number of calls. Two schedulers run the same steps: any interleaving of threads
(`SoftLockInvariant`, `Interleavings`), and a stack of contexts in which only the top one runs
(`Preemption`, `Termination`); `Leftovers` says exactly when a run leaves work behind. `SoftLockBench`,
`ConsumerTermination` and `BenchCompletion` are the benchmark with its threads, joins and closing access;
`MutexBench` and `MutexCompletion` are the baseline it must agree with; `AbstractQueue` is the queue both refine.
`SoftLockObjects` has the same operations as methods that update objects in place, tied to the steps;
`SoftLockAccess` says what whole calls of `with_access` come to, and `MutexTurns` what turns of the baseline do.

**The stack-check pass and its runtime** (`hopter/aarch64-split-stack-plugin`). `StackIR` is the part of
LLVM IR the pass looks at and how it runs on a stack; `Rewriting` and `SplitStackPass` are the rewriting and
the proof, by simulation (`Simulation`), that it preserves meaning; `CheckCoverage` says where the checks end
up; `PassObjects` is the pass itself, changing a module in place; `CheckOutcomes` compares runs when
`__morestack` returns, is never called, or never returns; `StackSafety` is what the checks guarantee, and
`Runtime` puts it under the bounds that `runtime.c` computes.

**The bump allocator and the digit printers** (`hopter/aarch64-baremetal-unwind`). `BumpAllocator` is the
compare-exchange loop for any heap size, so for both copies of it, with any number of callers and a first
load that may return any earlier value; `Digits` is the two printers. `Numbers` has the machine's bit
operations as the code uses them.

## How to read it

- A run is a list of actions, newest last; `Legal` says each was possible, `After` where it leads. History
  fields (`popped`, `completions`, `checks`, ...) are read by no step.
- A call's queue-mutex steps are offered only while the mutex is free, and `MutualExclusion` proves it always
  is when wanted.
- In `StackIR` the data of a program is its trace: a branch's decision and an alloca's size may depend on all
  original instructions executed before. `frame(f)` is what f's prologue takes off SP; `comesBack` says
  whether `__morestack` returns. The inserted read of SP, load, subtraction, comparison and branch, which
  are adjacent, are one terminator.
- The no-wrap side condition of `RollingSafety` and `Headroom` is `NeverMisled`: no decrement the run executes
  wraps around to at or above the bound. `ChecksRightExactly` shows that it is exact. `Tame` (no frame and no
  alloca larger than the bound's address) is enough for it, and can be checked beforehand. The other conditions
  are in `Startable`: room at the start, and a `__morestack` that does not return.

## What the proofs brought up

- The consumer's second exit (`main.rs:306-309`) is dead: it is evaluated only after `processed < total_ops`
  was seen by the only thread that changes `processed`, and then its three loads cannot all be satisfied
  (`SecondExitNeverTaken`).
- Under arbitrary threads a submission can be left pending after the last call (`ThreadsCanLeaveWork`); it is
  always flagged (`QuiescentStates`), and it happens if and only if some call is pend-only when the last guard
  looks at `pending` for the last time (`LastExitDecides`). Under nested preemption that never happens
  (`NestedExitsClean`, `NoLostWork`).
- With a budget of zero and any submission the two benchmarks never end (`FinishExactly`).
- The pass's comments speak of dynamic allocas (VLAs). The worklist is collected after the entry block was
  split, when no alloca is in the entry block any more, so LLVM calls none of them static, and all of them
  are instrumented (`EveryAllocaCollected`). The model follows the code.
- A check does not bound an alloca's size: from every SP there is an alloca that wraps it and passes
  (`HugeAllocaPasses`).
- `HOPTER_MAX_STACK_KB` is multiplied without an overflow check, exactly below 2^54 (`SettingExact`); and a setting
  of 1 to 8, accepted like any other, leaves no room above the margin, so that every thread stops at its first
  check (`SettingsThatWork`, `ThreadStarts`).
- The 16-aligned heap serves alignments above 16 only at aligned offsets, not at aligned addresses
  (`AddressesAlignedUpTo16`).

## Model

| member | source | states |
|---|---|---|
| `Interleavings.MutualExclusion` | hopter/softlock-std-demo/src/main.rs:82-120 | over all runs of any number of calls: `locked` is set exactly when one call is between a winning CAS and its release store, no two are, and no call ever waits for the queue's mutex |
| `Interleavings.MutexIsTheHolders` | hopter/softlock-std-demo/src/main.rs:164-189 | the queue's mutex is held exactly when the one holder is in a queue operation |
| `Interleavings.ContiguousIds` | hopter/softlock-std-demo/src/main.rs:164-207 | in every reachable state the popped ids are 1..p and the queue is p+1, p+2, ...; with no id in flight it ends at next_id - 1, although the id is drawn before the queue's mutex is taken |
| `Interleavings.IntentsAlwaysFlagged` | hopter/softlock-std-demo/src/main.rs:97-124 | a positive pending_submit means `pending` is set, or some call is about to set it, or a holder has swapped it and not yet drained |
| `Interleavings.FlaggedBeforeSwapIsDrained` | hopter/softlock-std-demo/src/main.rs:99-106 | whatever was flagged before a holder's swap of `pending` is in the queue or popped when that holder comes to clear `locked`, whatever the other calls do meanwhile |
| `SoftLockAccess.UnflaggedRoundOnlyReleases` | hopter/softlock-std-demo/src/main.rs:99-106 | in every run, a guard whose swap finds `pending` clear drains nothing in that round, however much is recorded: the swap changes nothing and the next step is the release store, which changes only `locked` |
| `SoftLockAccess.FinishesFlagged` | hopter/softlock-std-demo/src/main.rs:97-123 | every call that finishes does so by its last look at a clear `pending`, after having held the lock, or leaves `pending` set |
| `Interleavings.DrainRoundsBounded` | hopter/softlock-std-demo/src/main.rs:97-122 | a guard's drop drains at most once more than pend-only calls complete during it, in every interleaving |
| `Interleavings.Conservation` | hopter/softlock-std-demo/src/main.rs:163-213 | in every state the submissions counted at entry are processed, queued, pending or in the hands of some call, and batches never outnumber items plus the one being counted |
| `Interleavings.QuiescentStates` | hopter/softlock-std-demo/src/main.rs:163-213 | with no call in progress: direct_items = full_entries, drained_items + pending = pend_entries, drained_batches <= drained_items, the queue is contiguous, and anything left over is flagged |
| `Interleavings.ThreadsCanLeaveWork` | hopter/softlock-std-demo/src/main.rs:97-124 | a concrete two-thread run after which a submission stays pending with every call finished: under arbitrary threads the lock alone does not drain everything |
| `Leftovers.CleanExitsLoseNothing` | hopter/softlock-std-demo/src/main.rs:97-124 | under arbitrary threads, too, nothing is lost in any run that ends with every call finished and takes no exit (a guard's last look at `pending`, seeing nothing) while some call is pend-only |
| `Leftovers.LastExitDecides` | hopter/softlock-std-demo/src/main.rs:97-124 | the exact condition, for every run that ends with every call finished: `pending` stays set, and something is left behind, if and only if some call was pend-only at the last exit; pending_submit is what it was then plus what those calls were still to record |
| `Leftovers.NestedExitsClean` | hopter/softlock-std-demo/src/main.rs:97-124 | under nested preemption no exit is ever taken while a call is pend-only, so `NoLostWork` is a special case |
| `Leftovers.ExitFreeClean` | hopter/softlock-std-demo/src/main.rs:97-124 | and so is a run without any exit |
| `Interleavings.MoveRefines` | hopter/softlock-std-demo/src/main.rs:163-208 | each atomic step is a submit of the plain queue, a pop of it, or a stutter |
| `Interleavings.RunRefines` | hopter/softlock-std-demo/src/main.rs:163-208 | every run, as the sequence of its abstract operations, is a run of the plain queue |
| `AbstractQueue.ServesInOrder` | hopter/softlock-std-demo/src/main.rs:163-208 | the plain queue serves 1, 2, 3, ... in order: as many as were submitted, and popped as many as were asked for |
| `SoftLockInvariant.StepBalances` | hopter/softlock-std-demo/src/main.rs:97-213 | one atomic step of one call keeps all eleven counting equations between the shared counters and what the calls have in hand |
| `SoftLockInvariant.RunKeepsInv` | hopter/softlock-std-demo/src/main.rs:97-213 | the invariant holds in every state of every run |
| `Preemption.NoLostWork` | hopter/softlock-std-demo/src/main.rs:97-124 | nested preemption, any depth and placement: whenever the stack of contexts is empty, `locked` and `pending` are clear, pending_submit is 0 and every submission is queued or processed |
| `Preemption.NestedRunStacked` | hopter/softlock-std-demo/src/main.rs:97-124 | the invariant behind it: a pend-only context has a holder below it, and a set flag always has a context on the stack answering for it |
| `Preemption.ReacquireSucceeds` | hopter/softlock-std-demo/src/main.rs:112-119 | under nested preemption the re-acquiring CAS succeeds at once; the spin body never runs |
| `Preemption.NestedProgress` | hopter/softlock-std-demo/src/main.rs:97-124 | a nested run is never stuck |
| `Termination.StepFalls` | hopter/softlock-std-demo/src/main.rs:97-124 | every step but a failed re-acquire lowers an explicit measure, whoever else is running |
| `Termination.NestedRunsEnd` | hopter/softlock-std-demo/src/main.rs:97-124 | with F preemptions and budgets up to B a nested run is at most F * (16 (F + 1) + 2 B + 26) actions long, so every guard drop ends |
| `SoftLockBench.BenchCorrect` | hopter/softlock-std-demo/src/main.rs:284-365 | every complete run of every scenario: the closing access is Full and finished, each of its seven readings is the counter it is named after, its three assertions hold, full + pend entries are all submissions, and exactly the ids 1..total were popped, in order |
| `BenchCompletion.RunGoesOn` | hopter/softlock-std-demo/src/main.rs:284-365 | no reachable state of the benchmark before its end is stuck |
| `BenchCompletion.FinishExactly` | hopter/softlock-std-demo/src/main.rs:284-365 | from every reachable state some continuation finishes, if and only if the budget is positive or nothing is to be done |
| `SoftLockBench.ClosingIsFull` | hopter/softlock-std-demo/src/main.rs:360 | the `unreachable!` arm is never reached |
| `SoftLockBench.ConsumerStopsWhenProcessed` | hopter/softlock-std-demo/src/main.rs:301-309 | the consumer leaves its loop only when everything is processed, through whichever exit |
| `SoftLockBench.SecondExitNeverTaken` | hopter/softlock-std-demo/src/main.rs:306-309 | the second exit condition is never true when it is evaluated: work still to be processed is always seen by one of its three loads |
| `SoftLockBench.AverageBatch` | hopter/softlock-std-demo/src/main.rs:367-371 | in every complete run the average batch is 0.0 if nothing was drained, and otherwise the quotient of the final drained_items and drained_batches, at least 1 |
| `SoftLockBench.CountingBounds` | hopter/softlock-std-demo/src/main.rs:349-365 | by counting alone: never more is processed than submitted, and when all is processed nothing is pending or queued and the statistics agree |
| `ConsumerTermination.AccessesBounded` | hopter/softlock-std-demo/src/main.rs:291-314 | once the producers have finished, with a positive budget, the consumer begins at most ceil(outstanding / budget) further accesses (one if nothing is outstanding) besides the one in progress |
| `ConsumerTermination.ConsumerStepsBounded` | hopter/softlock-std-demo/src/main.rs:291-314 | and its atomic steps altogether are bounded, so each access ends |
| `ConsumerTermination.ConsumerNeverStuck` | hopter/softlock-std-demo/src/main.rs:291-314 | until it has finished the consumer can always step or begin an access |
| `MutexBench.BenchCorrect` | hopter/softlock-std-demo/src/main.rs:384-460 | every complete run of the mutex baseline: both assertions hold, one producer lock per submission, ids 1..total popped in order |
| `MutexTurns.SubmissionRuns` | hopter/softlock-std-demo/src/main.rs:427-432 | an undisturbed producer turn counts its lock and queues the next id |
| `MutexTurns.TurnRuns` | hopter/softlock-std-demo/src/main.rs:391-419 | an undisturbed consumer turn is counted, takes exactly min(budget, queue length) ids from the front, and decides on what is left |
| `MutexTurns.TurnTakes` | hopter/softlock-std-demo/src/main.rs:391-419 | in every run a consumer turn, from taking the mutex to its decision, takes exactly min(budget, queue length) ids, the oldest, whatever the producers do meanwhile |
| `MutexTurns.TurnsNeeded` | hopter/softlock-std-demo/src/main.rs:391-439 | in every complete run consumer_lock_count is the number of turns, and they are at least ceil(total / budget) |
| `MutexCompletion.RunGoesOn` | hopter/softlock-std-demo/src/main.rs:384-460 | no reachable state of the baseline before its end is stuck |
| `MutexCompletion.FinishExactly` | hopter/softlock-std-demo/src/main.rs:384-460 | and it can finish from every reachable state under the same condition as the soft-lock benchmark, and no other |
| `MutexBench.BenchesAgree` | hopter/softlock-std-demo/src/main.rs:284-460 | complete runs of the two benchmarks on the same scenario serve the same ids in the same order, whatever the interleavings |
| `MutexBench.AdvanceRefines` | hopter/softlock-std-demo/src/main.rs:391-439 | each step of the baseline, too, is an abstract submit, an abstract pop or a stutter |
| `MutexBench.RunRefines` | hopter/softlock-std-demo/src/main.rs:391-439 | every run of the baseline, as the sequence of its abstract operations, is a run of the plain queue |
| `SoftLockObjects.DemoInner.SubmitDirect` | hopter/softlock-std-demo/src/main.rs:164-169 | in place: the new state is that of the whole `submit_direct` |
| `SoftLockObjects.DemoInner.ProcessSome` | hopter/softlock-std-demo/src/main.rs:171-184 | in place, with its loop: min(budget, queue length) items leave the queue, oldest first, and are counted and returned |
| `SoftLockObjects.DemoInner.RunPendedOp` | hopter/softlock-std-demo/src/main.rs:193-207 | in place, with its loop: all pending submissions get the next ids at the back of the queue, one batch is counted, pending_submit is 0 |
| `SoftLockObjects.DemoInner.PendSubmit` | hopter/softlock-std-demo/src/main.rs:211-213 | in place: one more submission is pending and nothing else changes |
| `SoftLockObjects.SoftLock.Guard` | hopter/softlock-std-demo/src/main.rs:82-90 | the CAS: it wins exactly when the lock was free, and the lock is held afterwards |
| `SoftLockObjects.SoftLock.DrainRound` | hopter/softlock-std-demo/src/main.rs:100-104 | the swap and what follows it: the content is drained exactly if `pending` was set, and unchanged otherwise |
| `SoftLockObjects.SoftLock.DropHolder` | hopter/softlock-std-demo/src/main.rs:97-121 | the holder's drop loop, whether `pending` is set at first or not, and preempted in each round by any number of producers: it ends released, unflagged, and with the content drained round by round |
| `SoftLockObjects.DropDrainsAll` | hopter/softlock-std-demo/src/main.rs:97-124 | what that final state is: if `pending` was set at first or the drop was preempted, every submission recorded before or during it, in order of arrival, behind what was queued, one batch a round; otherwise nothing has changed |
| `SoftLockObjects.DrainRuns` | hopter/softlock-std-demo/src/main.rs:193-207 | the atomic steps of an undisturbed `run_pended_op` come to the method's effect |
| `SoftLockObjects.DropRuns` | hopter/softlock-std-demo/src/main.rs:97-121 | the atomic steps of an undisturbed drop come to one round: it drains if and only if `pending` was set, whatever is recorded |
| `SoftLockObjects.ProcessRuns` | hopter/softlock-std-demo/src/main.rs:171-184 | likewise `process_some` |
| `SoftLockObjects.SubmitRuns` | hopter/softlock-std-demo/src/main.rs:164-169 | likewise `submit_direct` |
| `SoftLockAccess.CheckRuns` | hopter/softlock-std-demo/src/main.rs:301-309 | an undisturbed consumer's decision: to stop if everything is processed, or if the producers are done and nothing is pending or queued, and to go on otherwise |
| `SoftLockAccess.SubmitAccessRuns` | hopter/softlock-std-demo/src/main.rs:323-328 | a whole undisturbed `with_access` of a producer that wins: counted, queued directly, and the drop |
| `SoftLockAccess.PendAccessRuns` | hopter/softlock-std-demo/src/main.rs:328-331 | of one that loses: counted, one more pending, flagged |
| `SoftLockAccess.ConsumeAccessRuns` | hopter/softlock-std-demo/src/main.rs:292-310 | of the consumer that wins: drained, up to budget ids taken, the decision on what is left, and the drop |
| `SoftLockAccess.ConsumePendRuns` | hopter/softlock-std-demo/src/main.rs:311 | of the consumer that loses: flagged, and it goes on |
| `SoftLockAccess.ObserveAccessRuns` | hopter/softlock-std-demo/src/main.rs:349-359 | of the closing access: the seven counters, and the drop |
| `SplitStackPass.FramePadRounds` | hopter/aarch64-split-stack-plugin/pass/SplitStackPass.cpp:129 | the frame pad is the least multiple of 16 that covers 128 bytes and the extra pad; without extra pad it is 128 |
| `PassObjects.SkipsExactly` | hopter/aarch64-split-stack-plugin/pass/SplitStackPass.cpp:85-95 | skipped are exactly the functions without a body, marked no-split-stack or naked, named `__hopter_stklet_bound`, or whose names are `__morestack` or `__split_stack` followed by anything |
| `Rewriting.SplitPreserves` | hopter/aarch64-split-stack-plugin/pass/SplitStackPass.cpp:140-147 | splitting a block after its phis, phis of its successors renamed, preserves what every program does |
| `Rewriting.GuardPreserves` | hopter/aarch64-split-stack-plugin/pass/SplitStackPass.cpp:149-180 | replacing a branch by the comparison with a call of `__morestack` beside it preserves what every program does, up to being stopped there |
| `SplitStackPass.InstrumentationMeaning` | hopter/aarch64-split-stack-plugin/pass/SplitStackPass.cpp:118-270 | the whole rewriting of a function, in every program and on every input, with several allocas in a block or allocas in loops: what either version reaches the other reaches, unless it is stopped first |
| `PassObjects.ModuleMeaning` | hopter/aarch64-split-stack-plugin/pass/SplitStackPass.cpp:276-283 | the same for a module, with skipped functions left alone |
| `CheckOutcomes.ReturningMorestackUnnoticed` | hopter/aarch64-split-stack-plugin/pass/SplitStackPass.cpp:171-180 | when `__morestack` returns, source and instrumented module have the same traces of original instructions and end alike |
| `CheckOutcomes.PassingChecksUnnoticed` | hopter/aarch64-split-stack-plugin/pass/SplitStackPass.cpp:153-180 | when every check passes, likewise |
| `CheckOutcomes.StoppedAtPrefix` | hopter/aarch64-split-stack-plugin/pass/SplitStackPass.cpp:171-180 | when it never returns, what was done by then is a prefix of what the source does |
| `CheckCoverage.EveryAllocaCollected` | hopter/aarch64-split-stack-plugin/pass/SplitStackPass.cpp:217-222 | the worklist holds exactly the allocas of the function, of constant size or not: after the entry split none is static |
| `CheckCoverage.WorklistExactly` | hopter/aarch64-split-stack-plugin/pass/SplitStackPass.cpp:217-222 | on any body the worklist is the allocas outside the entry block and those in it whose size is not constant |
| `CheckCoverage.CollectedOnce` | hopter/aarch64-split-stack-plugin/pass/SplitStackPass.cpp:217-222 | and each once |
| `CheckCoverage.InstrumentationCovers` | hopter/aarch64-split-stack-plugin/pass/SplitStackPass.cpp:118-267 | the result has a check in an entry block of its own and one right after every alloca, no other, each with its call of `__morestack` reached only through it; no alloca is lost or added |
| `PassObjects.ModuleCovered` | hopter/aarch64-split-stack-plugin/pass/SplitStackPass.cpp:276-283 | so has every function of a module that is not skipped |
| `CheckOutcomes.OutputAllChecked` | hopter/aarch64-split-stack-plugin/pass/SplitStackPass.cpp:276-283 | a module none of whose functions with a body is skipped comes out checked throughout, which is what the safety results assume |
| `CheckOutcomes.OutputRollsSafely` | hopter/aarch64-split-stack-plugin/pass/SplitStackPass.cpp:118-283 | so the output of the pass runs with the pad free above the bound, and does what its source does |
| `PassObjects.Module.SplitBasicBlock` | hopter/aarch64-split-stack-plugin/pass/SplitStackPass.cpp:141-142 | in place, with the loop over phis: the body is the split one |
| `PassObjects.Module.AddCheck` | hopter/aarch64-split-stack-plugin/pass/SplitStackPass.cpp:149-180 | in place: the branch is erased for the comparison, and the other block added |
| `PassObjects.Module.CollectDynAllocas` | hopter/aarch64-split-stack-plugin/pass/SplitStackPass.cpp:217-222 | the nested loops return the worklist |
| `PassObjects.Module.FindAlloca` | hopter/aarch64-split-stack-plugin/pass/SplitStackPass.cpp:226-227 | an alloca of the worklist is found in the block it has been moved to |
| `PassObjects.Module.InstrumentEntry` | hopter/aarch64-split-stack-plugin/pass/SplitStackPass.cpp:140-180 | in place: the entry is split and checked |
| `PassObjects.Module.InstrumentAllocas` | hopter/aarch64-split-stack-plugin/pass/SplitStackPass.cpp:224-267 | the worklist loop: every alloca of it is checked, in order |
| `PassObjects.Module.InstrumentFunction` | hopter/aarch64-split-stack-plugin/pass/SplitStackPass.cpp:85-270 | in place: by the function's own attributes and name it is left alone, and not changed, or it is instrumented, and changed; the others are untouched |
| `PassObjects.Module.Run` | hopter/aarch64-split-stack-plugin/pass/SplitStackPass.cpp:276-283 | every function left alone or instrumented, by its own attributes and name; `changed` exactly if one was not left alone, and nothing modified otherwise |
| `StackSafety.ChecksExecuted` | hopter/aarch64-split-stack-plugin/pass/SplitStackPass.cpp:153-180 | in every run, whatever `__morestack` does: checks executed = functions entered + allocas executed, but for the one that is next |
| `StackSafety.RollingSafety` | hopter/aarch64-split-stack-plugin/pass/SplitStackPass.cpp:124-129 | every run and call tree of instrumented functions in which no decrement of SP wraps around to at or above the bound: original code runs with the pad free above the bound, and a prologue that writes no further below its caller's SP than the pad writes nothing below the bound |
| `StackSafety.ChecksRightExactly` | hopter/aarch64-split-stack-plugin/pass/SplitStackPass.cpp:158-166 | and that condition is exact: every check of a run passes just what fits if and only if no decrement the run executes wraps so |
| `StackSafety.TameNeverMisled` | hopter/aarch64-split-stack-plugin/pass/SplitStackPass.cpp:158-166 | it holds in every run whose frames and allocas are no larger than the address of the bound |
| `StackSafety.Headroom` | hopter/aarch64-split-stack-plugin/pass/SplitStackPass.cpp:161-180 | a check fails, and leads to `__morestack`, exactly when less than margin and pad is left below where SP really is; margin + pad minus the last SP decrement is left even then |
| `StackSafety.StopsAtOnce` | hopter/aarch64-split-stack-plugin/pass/SplitStackPass.cpp:161-180 | a thread that starts without room runs no original instruction: its first check fails and the run stops |
| `StackSafety.ComparisonExact` | hopter/aarch64-split-stack-plugin/pass/SplitStackPass.cpp:161-166 | for every decrement from where there is room: the unsigned comparison is right if and only if the subtraction did not wrap to at or above the bound |
| `StackSafety.HugeAllocaPasses` | hopter/aarch64-split-stack-plugin/pass/SplitStackPass.cpp:240-247 | from every SP with room there is an alloca that passes its check although it does not fit |
| `Runtime.StackRuntime.Ctor` | hopter/aarch64-split-stack-plugin/runtime/runtime.c:67-84 | initial SP, stack size and the main thread's bound, in numbers: without a setting, or with one of 0, 2 MiB and SP - 2 MiB + 8 KiB; with any other below 2^54, that many KiB and SP - that + 8 KiB |
| `Runtime.StackRuntime.Trampoline` | hopter/aarch64-split-stack-plugin/runtime/runtime.c:136-148 | the new thread's bound from its own SP, SP - max + 8 KiB inside the address space; every other thread's stays |
| `Runtime.BoundExact` | hopter/aarch64-split-stack-plugin/runtime/runtime.c:84 | the bound is SP - max + margin as numbers if and only if that stays inside the address space |
| `Runtime.DefaultWorks` | hopter/aarch64-split-stack-plugin/runtime/runtime.c:73-84 | without a setting, or with one of 0, a thread starts with room for every pad up to 2 MiB less the margin |
| `Runtime.SettingExact` | hopter/aarch64-split-stack-plugin/runtime/runtime.c:75-79 | for every setting: the multiplication by 1024 is exact if and only if the setting is less than 2^54, and wraps to what is left of it modulo 2^54 otherwise |
| `Runtime.SettingsThatWork` | hopter/aarch64-split-stack-plugin/runtime/runtime.c:75-84 | for every setting: the thread starts with room if and only if what is left of it covers margin and pad and fits the address space |
| `Runtime.HugeSettingWraps` | hopter/aarch64-split-stack-plugin/runtime/runtime.c:75-79 | the witness: 2^54 KiB wraps to a stack of no bytes, under which the first check fails |
| `Runtime.StartsWithRoom` | hopter/aarch64-split-stack-plugin/runtime/runtime.c:142-148 | for every SP and every stack size: a thread starts with room if and only if margin and pad fit in its stack and the stack in the address space, or SP is so high that the bound wraps around |
| `Runtime.ThreadStarts` | hopter/aarch64-split-stack-plugin/runtime/runtime.c:67-148 | any stack too small for margin and pad, such as a setting of 1 to 8 KiB, stops every thread at its first check before any original instruction; any other lets it start with room |
| `Runtime.ThreadSafety` | hopter/aarch64-split-stack-plugin/runtime/runtime.c:136-148 | a thread so started is safe in the sense of RollingSafety and Headroom in all its runs, and its configured bottom is max below its SP |
| `Runtime.DepthOfFrames` | hopter/aarch64-split-stack-plugin/runtime/runtime.c:81-84 | for functions without allocas and of one frame size, on a stack of any size, in every run: the check at depth d passes exactly when d * size + pad <= max - margin, and only then does code at that depth run |
| `Runtime.ChainPasses` | hopter/aarch64-split-stack-plugin/runtime/runtime.c:81-84 | all checks of a chain of d such frames pass exactly when the last does |
| `BumpAllocator.PlaceRounds` | hopter/aarch64-baremetal-unwind/src/main.rs:128-133 | no overflow in `cur + align - 1`, and the mask form is rounding up, for every layout |
| `BumpAllocator.AllocationsSafe` | hopter/aarch64-baremetal-unwind/src/main.rs:125-142 | every interleaving and every stale first load: allocations lie in the heap at offsets aligned as asked and are pairwise disjoint |
| `BumpAllocator.OnlyGrows` | hopter/aarch64-baremetal-unwind/src/main.rs:134-141 | `next` never decreases, and what was handed out stays so |
| `BumpAllocator.SpaceUsed` | hopter/aarch64-baremetal-unwind/src/main.rs:126-141 | `next` is at most the sum of size + align - 1 over the successes, and within the heap |
| `BumpAllocator.NoSpuriousNull` | hopter/aarch64-baremetal-unwind/src/main_with_unwinding.rs:51-58 | a null pointer is returned only if no aligned place behind the current `next` fits, however stale the value it was computed from |
| `BumpAllocator.FailedFreshExchange` | hopter/aarch64-baremetal-unwind/src/main.rs:134-140 | a failed exchange means `next` has been moved on, strictly, since the expected value was its current one |
| `BumpAllocator.FailuresPaid` | hopter/aarch64-baremetal-unwind/src/main.rs:126-141 | a caller's failed exchanges are at most one more than the others' successes since it began |
| `BumpAllocator.AddressAligned` | hopter/aarch64-baremetal-unwind/src/main.rs:106-107 | the address of an aligned offset is aligned if and only if the heap's is |
| `BumpAllocator.AddressesAlignedUpTo16` | hopter/aarch64-baremetal-unwind/src/main.rs:106-107 | in a 16-aligned heap addresses are aligned as asked if and only if the alignment asked for is at most 16 |
| `BumpAllocator.Allocator.Alloc` | hopter/aarch64-baremetal-unwind/src/main_with_unwinding.rs:44-73 | the loop itself: whatever the first load returned and however often other callers move `next` before its exchanges, the request is placed behind `next` as it then is if it fits there, and refused otherwise |
| `BumpAllocator.AllocRuns` | hopter/aarch64-baremetal-unwind/src/main.rs:125-141 | two turns of an undisturbed caller come to the method's effect |
| `Numbers.MaskUpRounds` | hopter/aarch64-baremetal-unwind/src/main.rs:128 | (x + a - 1) & !(a - 1) is the least multiple of a that is at least x, for every power of two and every x without wrap |
| `Digits.Uart.Hex` | hopter/aarch64-baremetal-unwind/src/main.rs:77-89 | sends 0x and the numeral of any 64-bit value: no leading zero, at most 16 digits, worth the value |
| `Digits.Uart.Usize` | hopter/aarch64-baremetal-unwind/src/main.rs:91-101 | sends the decimal numeral: no leading zero, at most 20 digits, worth the value |
| `Digits.FillHex` | hopter/aarch64-baremetal-unwind/src/main.rs:80-87 | the loop never indexes below the 16-byte buffer, and what it leaves is the numeral |
| `Digits.FillDecimal` | hopter/aarch64-baremetal-unwind/src/main.rs:93-99 | likewise for the 20-byte buffer |
| `Digits.NumeralUnique` | hopter/aarch64-baremetal-unwind/src/main.rs:77-101 | a value has one numeral in a base, so what is sent is determined |
| `Digits.EnoughPlaces` | hopter/aarch64-baremetal-unwind/src/main.rs:80-94 | 16 hexadecimal and 20 decimal places hold every 64-bit value |
| `Digits.Uart.Print` | hopter/aarch64-baremetal-unwind/src/main.rs:70-75 | sends the string with one carriage return more before every newline, and nothing else |
| `Digits.CrlfAdds` | hopter/aarch64-baremetal-unwind/src/main.rs:70-75 | every newline sent follows a carriage return, and without those the string is what was given |

## Left out

- Timing, throughput, `spin_n`, `yield_now`, the scenario table and printing: measurement only. The consumer's
  load of `pending_submit` before its drain (`main.rs:294`) and the count `process_some` returns only decide
  whether it spins, so that load is no step of the model.
- Wrap-around of the 64-bit counters and ids of the soft lock: they are unbounded numbers, which differs only
  after 2^64 operations.
- Liveness of the multi-threaded re-acquire spin, which needs a fair scheduler.
- Panics inside a closure and mutex poisoning.
- SoftLockObjects.SoftLock.DropHolder: models preemption at one point of each round, between the drain and
  the release store, with a list of producers; arbitrary placement is what `Preemption` covers.
- PassObjects.Module.SplitBasicBlock: new blocks go to the end of the body, while LLVM places them next to the
  block split; only the order in which the worklist is filled and worked off depends on it.
- PassObjects.Module.Run: the declaration of `__morestack`, the bound's global, branch weights, attributes, TLS
  model and pass registration are not modelled.
- CheckCoverage.InstrumentationCovers: is about functions that have not been through the pass before; running it
  twice is not modelled.
- Terminators other than branches and returns (`switch`, `invoke`, `unreachable` and the like) are not part of
  `StackIR`.
- StackSafety.RollingSafety: calls of functions without a body are opaque and use no stack in the model, and SP is
  lowered by prologues and allocas only; `llvm.stackrestore` and changes of calling convention are left out.
- SplitStackPass.InstrumentationMeaning: a program's data is its trace of original instructions, so code that
  looks at its own SP or at the TLS bound is outside the claim.
- `runtime_aarch64.S`: only whether `__morestack` comes back matters. Its documentation and `runtime.c` give
  different emergency stack sizes; neither is used here.
- Allocation of the thread argument, `dlsym`, `strtoul` and the messages of the runtime: library calls; the
  value read from the environment is a parameter.
- Memory orderings other than the relaxed first load, which may return any earlier value of `next`, and
  sequential consistency elsewhere.
- Panic handling, unwinding, task restart, UART registers, boot code, linker script, demo programs, scripts and
  the designs of unbuilt kernel code.
