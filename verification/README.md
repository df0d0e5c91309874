# Verified models of a demand-paging simulator and a multi-threaded name resolver

Two programs of the repository are modelled here, and properties of the models are proved.

**The demand-paging simulator** (`PA4/PA4`). Forty jobs, drawn from five programs, wait in a
queue. Up to twenty processor slots alias into that queue. A hundred physical frames are
shared by the jobs' pages; swapping a page in or out takes a hundred ticks. A job computes one
statement a tick if its current page is in, and is blocked otherwise. Branches are decided by a
run-length coded table of random draws. A pager, called once a tick, may start page-ins and
page-outs.

- `Programs`, `BranchEngine`, `ControlFlow`, `JobSteps`: what a job executes when paging is left out, and in one tick.
- `RunningTime`, `BranchingTime`: when the pure run of each of the five programs halts.
- `Simulation`: the machine as a state machine on values. One operation is one slot's turn in
  `allstep` or `allage`, or one call of the pager's interface; a run is any list of ticks with any calls.
- `Invariants`, `Effects`, `Transparency`, `SwapTiming`, `Deadlock`: what holds in every run, with an arbitrary pager.
- `PagerInterface`, `SlotOrder`, `Shuffling`: what the pager's two calls do and when they are accepted, which job enters
  which slot, and what the shuffle of the queue does with its draws.
- `BasicPaging`, `ClockHand`, `ClockPaging`, `Termination`: the two concrete pagers, and that their simulations end.
- `ClockCalls`, `BasicEffects`: what an invocation of either pager does, page by page.
- `BasicTiming`, `PagerAlarms`: how long the simulation with the basic pager takes, to the tick, and when the deadlock
  detector raises its alarm with each pager.
- `BranchContexts`, `Processes`, `Simulators`, `Pagers`, `MainLoop`: the program itself, as objects updated
  in place. Every method is proved to do to its object what the state machine does to the value
  that the object stands for (`Value()`, `View()`), down to the main loop.
- `DrawnTimes`: what every job computes, and the compute score, as numbers in the draws.

Main results: paging changes when a job computes and never what it computes, so completed runs have
equal scores; frames, slots and work are conserved; the deadlock detector is right in both
directions; swaps take exactly as long as intended, which bounds the number of page-ins in a
window; the exact running times and compute scores, in the draws; both pagers bring every generated queue to
its end, and the basic one after a number of ticks that is known exactly.

**The name resolver** (`PA-Three/PA3`). Requester threads claim input files and push their lines
on a shared stack; resolver threads take them off.

- `Lookup`: the threads as a step system under an arbitrary schedule, with their waits, signals and broadcasts.
- `LookupFiles`: exactly-once file service, for every schedule.
- `LookupOrder`: the order of the claims and of the stack, and which threads each move unblocks.
- `LookupBuffer`: conservation and drain of the stack, and exactly which schedules break it.
- `LookupHazards`, `LookupSchedules`: how waiting goes wrong when the work is done, and that it can, for all files and
  numbers of threads.
- `LookupExits`: when all requesters have finished, exactly which resolvers can still exit, exactly which wait for ever,
  and exactly when a take from an empty buffer can still come.
- `LookupEarly`: exactly when such a take can come before any requester has finished.
- `LookupProgress`: a bound on the moves of every schedule, no deadlock before the last requester has finished, and what
  every run that has come to its end has done.
- `LookupThreads`: the critical sections as updates in place of shared memory, which refine the step system.

Main results: in every schedule no file is served twice and no line pushed twice; the stack is conserved exactly in the
schedules that never take from an empty buffer, and it is known exactly when such a take can come before the first and after
the last requester has finished; every schedule has a bounded number of moves, there is no deadlock before the last
requester has finished, and it is known exactly which resolvers can exit after it.

`Machine` (with `Sums`) and `Iteration` hold the machine's sizes, sums and induction principles.

## What the code does, where its comments say otherwise

- `pager-lru.c` calls itself least-recently-used. No time stamp is ever later than the present, so its
  scan for a victim never moves, and starting a page-out frees no frame, so asking again for the
  page never succeeds. What remains is a clock hand over page numbers (`Pagers.LruPager.PageIt`, `ClockCalls.ClockPages`).
- `multi-lookup.c`: a resolver does not look at the buffer again after its wait. If it is unblocked and the buffer is empty
  when it gets the lock, it takes from position -1. `LookupBuffer.SafeExactly` gives the exact condition. Three wake-ups
  can lead there: the broadcast of the last requester to finish (`LookupSchedules.FinalBroadcastUnderflows`), a signal
  for a line that another resolver takes first (`LookupHazards.StolenWakeUp`, reached in
  `LookupEarly.StolenWakeUpArises`), and the signal at the end of a file without lines (`LookupEarly.EmptyFileLater`).
  The first can happen with all files and numbers of threads. Before any requester has finished it can happen if and
  only if there are two resolvers or some file has no lines (`LookupEarly.EarlyUnderflowExactly`).
- `multi-lookup.c`: that last broadcast is made without `buffer_lock`, so it can come between a resolver's look at the
  finished counter and its wait. The resolver then waits for ever (`LookupSchedules.MissedBroadcastHangs`). Once all
  requesters have finished, a resolver can still exit if and only if `LookupExits.MayExit`, which looks at the resolver's
  state, whether it has been unblocked, the position and the lock (`LookupExits.ExitsExactly`,
  `LookupExits.AfterTheLastFinish`). No line is lost with such a resolver (`LookupProgress.RunsEndAlike`), but `main`
  joins it.
- `simulator.h` says that the pager is called when something interesting happens; it is called every tick.
- In an empty branch table the search still compares with the first, zero-initialised cell, so the first
  statement of the straight-line program is a branch to itself that is taken once: it computes for 1913 ticks.

## Model

| member | source | states |
|---|---|---|
| Programs.BranchAt | PA4/PA4/simulator.c:374-388 | the branch of a statement is the one whose `wherefrom` it is, and there is none if no entry has it; an empty table has the zero-initialised cell |
| Programs.BranchIndex | PA4/PA4/simulator.c:374-388 | in a sorted table the branch found is the unique one at that statement |
| Programs.ProgramTableIsValid | PA4/PA4/programs.c:17-54 | the five tables are sorted, small enough for the page table and have an exit |
| Processes.OnExit | PA4/PA4/simulator.c:357-373 | the two-ended search ends and agrees with membership in the exits |
| Processes.FindBranch | PA4/PA4/simulator.c:374-388 | the two-ended search ends and finds the branch of the statement, and its index into the contexts |
| BranchContexts.BranchContext.Clear | PA4/PA4/simulator.c:170-178 | a cleared context: one run of one take |
| BranchContexts.BranchContext.Init | PA4/PA4/simulator.c:181-235 | what each kind of branch gets from its draws; an IF gets the run-length code of its tosses |
| BranchContexts.BranchContext.InitIf | PA4/PA4/simulator.c:192-207 | a hundred complete runs that decode to a prefix of the tosses, the next toss being the first one again |
| BranchContexts.BranchContext.InitLoop | PA4/PA4/simulator.c:208-231 | loop counts in the even cells, one escape in each odd cell |
| BranchContexts.BranchContext.Decide | PA4/PA4/simulator.c:238-249 | one decision of the engine, in place |
| BranchEngine.EnginePlaysRuns | PA4/PA4/simulator.c:238-249 | from the start of its table the engine's decisions are exactly the runs, in order and alternating, for any number of runs including the wrap |
| BranchEngine.ReplaysDraws | PA4/PA4/simulator.c:192-207 | round trip: an engine built from tosses replays those tosses in order and is then back where it started |
| BranchEngine.EngineIsPeriodic | PA4/PA4/simulator.c:31 | with an even table the stream of decisions is periodic in the sum of the runs |
| BranchEngine.CodeIsUnique | PA4/PA4/simulator.c:192-207 | the decoded stream determines the runs |
| BranchEngine.DrawsDetermineCode | PA4/PA4/simulator.c:192-207 | the tosses determine the whole context |
| BranchEngine.AdmissibleIsValid | PA4/PA4/simulator.c:181-235 | loop counts lie between their bounds, runs have length at least 1 |
| BranchEngine.EnginePlaysAnyRuns | PA4/PA4/simulator.c:238-249 | the same for any table: a run of no or negative length lasts for one decision |
| BranchEngine.LoopPlaysDraws | PA4/PA4/simulator.c:208-231 | for each of its numbers a FOR takes its branch as often as the number says, between its bounds, and then refuses once; an NFOR the other way round |
| BranchEngine.ClearedTakesOnce | PA4/PA4/simulator.c:170-178 | a cleared context takes its branch once and then refuses |
| BranchEngine.GotoTakes | PA4/PA4/simulator.c:185-191 | a GOTO takes its branch 0x7fffffff times and then refuses |
| ControlFlow.StepControl | PA4/PA4/simulator.c:374-396 | a control step keeps the statement between 0 and the program's size |
| ControlFlow.HaltsOnce | PA4/PA4/simulator.c:356-373 | a pure run stands on an exit for the first time at one point only, and makes no step beyond it |
| ControlFlow.ReachOnce | PA4/PA4/simulator.c:324-397 | a pure run is in one state only after a number of steps |
| JobSteps.StepEffect | PA4/PA4/simulator.c:324-373 | an active job is blocked for a tick unless the page of its statement is in; then it computes, and goes on unless it is at an exit; an inactive one does nothing |
| JobSteps.BranchStep | PA4/PA4/simulator.c:306-321 | a branch leads to its target or to the next statement, or to the first one if there is no such statement, and only its own context moves on |
| JobSteps.PlainStep | PA4/PA4/simulator.c:389-396 | any other statement leads to the next one, and past the end of the program to the first |
| JobSteps.BranchlessStep | PA4/PA4/simulator.c:374-388 | in a program without branches statement 0 is a branch to itself |
| RunningTime.OneLoopTime | PA4/PA4/programs.c:27-32 | the one-loop program halts after 1130 * (k + 1) steps for a drawn count of k, between 20 and 49 |
| RunningTime.DoublyNestedLoopTime | PA4/PA4/programs.c:33-39 | the nested loops halt after 1684 * (m + 1) steps and 517 for every take of the inner loop, which draws a new count in each round |
| BranchingTime.LinearTime | PA4/PA4/programs.c:40-44 | the straight-line program halts after 1912 steps, one more than its exit statement |
| BranchingTime.LoopWithInnerBranchTime | PA4/PA4/programs.c:19-26 | 633 steps for each round whose IF is taken, 1403 for each other |
| BranchingTime.LoopWithInnerBranchDraws | PA4/PA4/programs.c:19-26 | the same counted in the coin tosses themselves |
| BranchingTime.TakesAreDraws | PA4/PA4/simulator.c:192-207 | for as many decisions as its hundred runs hold, an IF takes its branch as often as its tosses say |
| BranchingTime.BackwardBranchTime | PA4/PA4/programs.c:45-53 | for all tosses, the program with the backward branch halts in the round of the toss that brings the n + 1-st turn of its loop, after 502 steps for each toss and 2 for each time the GOTO did not take its branch |
| BranchingTime.BackwardBranchRounds | PA4/PA4/programs.c:45-53 | there always is such a toss among those that the IF replays |
| BranchingTime.BackwardBranchDraws | PA4/PA4/programs.c:45-53 | as long as at most 0x7fffffff tosses are false, the turns are the true tosses and each toss takes 502 steps |
| BranchingTime.GotoRefuses | PA4/PA4/simulator.c:185-191 | how often a GOTO has refused when it has been asked n times, for all n: it takes and refuses in runs of 0x7fffffff |
| BranchingTime.GotoHolds | PA4/PA4/simulator.c:185-191 | it has never refused if and only if it has been asked at most 0x7fffffff times |
| BranchingTime.EveryProgramHalts | PA4/PA4/programs.c:18-54 | all five programs halt for all draws, also when the run of a GOTO ends |
| Processes.Process.Clear | PA4/PA4/simulator.c:251-269 | all counters are zero, all contexts cleared, all pages out, no program and no position, and the process inactive |
| Processes.Process.EmptyPages | PA4/PA4/simulator.c:285-289 | no page has a frame, and the contexts stay |
| Processes.Process.InitContexts | PA4/PA4/simulator.c:280-282 | every branch gets the context that its draws give it |
| Processes.Process.Load | PA4/PA4/simulator.c:272-292 | a fresh job of the given program, with the contexts that its draws give it |
| Processes.Process.DoBranch | PA4/PA4/simulator.c:306-321 | the branch is decided by its own context, which alone moves on |
| Processes.Process.Advance | PA4/PA4/simulator.c:374-396 | the control step of the pure run, in place |
| Processes.Process.Step | PA4/PA4/simulator.c:324-397 | one tick of a job: inactive, blocked, computing its exit, or computing a control step |
| Simulators.Simulator.PageOut | PA4/PA4/simulator.c:401-415 | only a resident page of an active job in range starts to leave, and keeps its frame |
| Simulators.Simulator.PageIn | PA4/PA4/simulator.c:418-434 | only a page that is out starts to come in, and takes a frame that is available |
| PagerInterface.PageOutEffect | PA4/PA4/simulator.c:401-415 | for a page of an active job: true if and only if it is in or on its way out; a page that is in gets timer -1, and nothing else changes |
| PagerInterface.PageInEffect | PA4/PA4/simulator.c:418-434 | true if and only if the page is in, on its way in, or out with a frame available; only in the last case it gets timer 100 and takes the frame, and nothing else changes |
| PagerInterface.NoPageNoEffect | PA4/PA4/simulator.c:401-423 | both calls are refused and do nothing if the slot or page does not exist, or the slot holds no active job |
| Simulators.Simulator.SetTypes | PA4/PA4/simulator.c:446 | the types go round the five programs |
| Simulators.Simulator.ShuffleTypes | PA4/PA4/simulator.c:446-452 | ten passes of swaps, as the draws say |
| Simulators.ShuffledIsPermutation | PA4/PA4/simulator.c:448-452 | the shuffle keeps the number of jobs of each program |
| Simulators.EightOfEach | PA4/PA4/simulator.c:442-452 | there are eight jobs of each program |
| Shuffling.PassesAreDraws | PA4/PA4/simulator.c:448-452 | the passes use up the draws one after the other |
| Shuffling.DrawExchanges | PA4/PA4/simulator.c:449-452 | draw n exchanges entry n % 40 with the entry that it names modulo 40, and moves no other |
| Shuffling.OwnPositionsKeepTypes | PA4/PA4/simulator.c:446-452 | draws that name their own positions leave entry i with program i % 5 |
| Shuffling.OneDrawExchangesTwo | PA4/PA4/simulator.c:446-452 | if only the draw for position i names another one, j, exactly entries i and j have changed places at the end |
| Shuffling.EveryArrangement | PA4/PA4/simulator.c:446-452 | every arrangement of the forty types is the result for some draws |
| Simulators.Simulator.InitQueue | PA4/PA4/simulator.c:444-458 | every queue entry is a fresh job of its type with the contexts of its draws, and knows its position |
| Simulators.DrawsDetermineJob | PA4/PA4/simulator.c:444-458 | the draws determine every job |
| Simulators.Simulator.Dequeue | PA4/PA4/simulator.c:459-462 | the next waiting process, or none when the queue is used up |
| Simulators.Simulator.AllInit | PA4/PA4/simulator.c:583-604 | the first jobs of a generated queue are in the slots |
| SlotOrder.LoadInOrder | PA4/PA4/simulator.c:583-592 | slot i holds job i as far as there are jobs, the rest wait, and all 100 frames are available |
| Simulators.Simulator.Refill | PA4/PA4/simulator.c:638-645 | the slot passes to the next waiting process, or stays empty |
| Simulators.Simulator.Unload | PA4/PA4/simulator.c:295-303 | every page goes out and gives its frame back |
| Simulators.Simulator.StepSlot | PA4/PA4/simulator.c:624-646 | one slot's turn in `allstep`; no other process changes |
| Simulators.Simulator.AllStep | PA4/PA4/simulator.c:621-648 | every slot has its turn, in order |
| SlotOrder.JobsEnterInOrder | PA4/PA4/simulator.c:621-646 | in `allstep` exactly the slots whose jobs are at an exit with its page in are vacated, and the waiting jobs enter them in the order of the queue and of the slots |
| Simulators.Simulator.AgePages | PA4/PA4/simulator.c:690-711 | every page timer of a process ticks, and pages that finish leaving give their frame back |
| Simulators.Simulator.AgeSlot | PA4/PA4/simulator.c:688-712 | one slot's turn in `allage`; no other process changes |
| Simulators.Simulator.AllAge | PA4/PA4/simulator.c:686-714 | every slot has its turn, in order |
| Simulators.Simulator.AllDone | PA4/PA4/simulator.c:650-656 | no slot holds an active process |
| Simulators.Simulator.AllBlocked | PA4/PA4/simulator.c:658-684 | counting decides whether some slot is occupied and all current pages are out |
| Simulators.Simulator.AllScore | PA4/PA4/simulator.c:606-619 | the two scores are the sums over the whole queue |
| Simulators.Simulator.Snapshot | PA4/PA4/simulator.c:716-736 | the pager is shown each slot's process, which pages are resident, and empty entries elsewhere |
| SlotOrder.EntryShows | PA4/PA4/simulator.c:716-736 | an entry shows whether its job is active, its statement, 20 pages, and each page as resident if and only if its timer is 0; or an inactive process at 0 without pages |
| Simulators.Simulator.OneChanged | PA4/PA4/simulator.c:441-443 | changing one process through a slot changes exactly one queue entry: slots alias into the queue, processes share nothing |
| Invariants.FrameConservation | PA4/PA4/simulator.c:401-434 | in every state of every run, available frames and frames owned by pages add up to 100, and every timer is in range |
| Invariants.JobPartition | PA4/PA4/simulator.c:440-463 | in every state of every run a queue entry is waiting as loaded, or running in exactly one slot, or finished with all pages out; a slot is empty only when no job is waiting |
| Invariants.StepKeepsInv | PA4/PA4/simulator.c:624-646 | a turn in `allstep`, with unloading and refilling, keeps the invariant |
| Invariants.AgeKeepsInv | PA4/PA4/simulator.c:688-712 | a turn in `allage` keeps the invariant |
| Invariants.InKeepsInv | PA4/PA4/simulator.c:418-434 | any `pagein` keeps the invariant |
| Invariants.OutKeepsInv | PA4/PA4/simulator.c:401-415 | any `pageout` keeps the invariant |
| Invariants.RunKeepsInv | PA4/PA4/simulator.c:829-837 | frames, slots and jobs stay in order through any number of ticks, whatever the pager calls |
| Invariants.LoadInv | PA4/PA4/simulator.c:583-604 | `allinit` establishes the invariant |
| Invariants.AllDoneMeansFinished | PA4/PA4/simulator.c:650-656 | when the loop ends every job of the queue has finished and every frame is available |
| Invariants.RunEnds | PA4/PA4/simulator.c:829-837 | from then on nothing changes any more, whatever the pager calls |
| Effects.AllStepEffect | PA4/PA4/simulator.c:621-648 | `allstep` gives every running job exactly one turn and changes no other job |
| Effects.AllAgeEffect | PA4/PA4/simulator.c:686-714 | `allage` ages the pages of exactly the running jobs |
| Effects.NewcomerIsFresh | PA4/PA4/simulator.c:638-645 | a job that enters a slot comes fresh from the queue |
| Transparency.PagingTransparency | PA4/PA4/simulator.c:324-397 | after any run each job has made exactly `compute` steps of its pure run; a finished one has made one fewer and stands on its first exit |
| Transparency.RunIsTransparent | PA4/PA4/simulator.c:401-434 | the same from any state, for any calls |
| Transparency.ScoresAgree | PA4/PA4/simulator.c:606-619 | completed runs of one queue agree in every job's compute count and final control state, whatever the pagers and the numbers of slots |
| Transparency.RunCompletes | PA4/PA4/simulator.c:829-837 | any run that ends is such a completed run |
| Transparency.AllStepWork | PA4/PA4/simulator.c:621-648 | `allstep` adds exactly one tick of work for every slot occupied when it began |
| Transparency.ScoresAddUp | PA4/PA4/simulator.c:606-619 | the two scores add up to the occupied slots over all ticks |
| Transparency.TickComputes | PA4/PA4/simulator.c:829-837 | the compute score never falls, and grows in every tick in which some current page is in |
| SwapTiming.SwapLatency | PA4/PA4/simulator.c:686-714 | a moving page moves one tick at a time, whatever the pager calls |
| SwapTiming.SwapInTakes | PA4/PA4/simulator.c:418-434 | a page-in lasts exactly 100 ticks |
| SwapTiming.SwapOutTakes | PA4/PA4/simulator.c:700-710 | a page on its way out keeps its frame for exactly 100 ticks, and `allage` frees a frame in the last of them |
| Effects.AgingFreesFrame | PA4/PA4/simulator.c:700-710 | when some page ends its way out, `allage` raises the number of available frames |
| SwapTiming.SwapThroughput | PA4/PA4/simulator.c:401-434 | in at most 200 ticks without an unload, at most 100 page-ins start, whatever the pager does |
| Deadlock.AlarmIsRight | PA4/PA4/simulator.c:658-684 | after an alarm no job computes or moves, and the alarm stays, until the pager pages something in |
| Deadlock.AlarmIsRaised | PA4/PA4/simulator.c:658-684 | left alone, the machine never computes again if and only if all current pages are out or leaving, and then the alarm is on after 100 ticks |
| Deadlock.AlarmComesAt | PA4/PA4/simulator.c:658-684 | then, after n ticks without calls the alarm is on if and only if none of these pages is still on its way out, so it first goes on in the tick in which the last one is out |
| PagerAlarms.BasicRaisesNoAlarm | PA4/PA4/pager-basic.c:31-57 | with the basic pager the alarm is never raised |
| PagerAlarms.LruAlarm | PA4/PA4/pager-lru.c:59-105 | with the other pager it is on after a tick if and only if, when the pager was called, all current pages were out and no frame was available |
| BasicPaging.FirstOccupied | PA4/PA4/pager-basic.c:33-36 | the first active slot |
| BasicPaging.PoolStaysLarge | PA4/PA4/pager-basic.c:31-57 | with the basic pager at least 80 frames are always available |
| BasicPaging.BasicOnlyPagesIn | PA4/PA4/pager-basic.c:41-54 | its page-outs never do anything: an invocation at most pages in the head's current page |
| BasicPaging.BasicTickKeepsInv | PA4/PA4/pager-basic.c:31-57 | only the first occupied slot ever owns frames, and no page is ever on its way out |
| BasicTiming.TickCounts | PA4/PA4/pager-basic.c:31-57 | every tick after the first is the head's: it computes, or waits for a page of its pure run that it has not had yet; no tick is lost |
| BasicTiming.FirstTick | PA4/PA4/pager-basic.c:31-57 | the first tick only calls the first page in |
| BasicTiming.InStaysIn | PA4/PA4/pager-basic.c:41-54 | a page that is in stays in until its job has finished |
| BasicTiming.BasicEnds | PA4/PA4/simulator.c:829-837 | the loop ends exactly one tick after as many ticks as its jobs have left |
| BasicTiming.HeadBlocks | PA4/PA4/pager-basic.c:31-57 | the ticks for which a job is blocked at the head on a page are what its wait for that page goes down by |
| ClockPaging.ClockEffect | PA4/PA4/pager-lru.c:59-102 | an invocation calls in the current page of a blocked job or evicts the resident page under the hand, and with a frame to spare some page is on its way in |
| ClockPaging.ClockTickComputes | PA4/PA4/pager-lru.c:59-105 | a tick takes no computation back and keeps the invariant |
| ClockPaging.FrameComputes | PA4/PA4/pager-lru.c:83-98 | a frame that a blocked job owns is spare after the hand has come round and the page has left, and then some job computes |
| ClockPaging.LeavingComputes | PA4/PA4/simulator.c:418-434 | a job whose current page is leaving gets it back |
| ClockPaging.ClockProgress | PA4/PA4/pager-lru.c:59-105 | from every reachable state with an occupied slot some job computes within 322 ticks |
| Pagers.LruPager.Victim | PA4/PA4/pager-lru.c:82-95 | among the resident pages from 1 up to the hand with a later time stamp than the current page, the latest one and the highest of equals; if there is none, the hand |
| Pagers.RetryFails | PA4/PA4/pager-lru.c:96-98 | starting a page-out frees no frame, so the second `pagein` fails and changes nothing |
| Pagers.OwnTurn | PA4/PA4/pager-lru.c:59-61 | slots hold different jobs, so the snapshot still describes a slot when its turn comes |
| Pagers.LruPager.PageSlot | PA4/PA4/pager-lru.c:61-101 | one slot's share of the code, with time stamps, scan and retry, is that of the clock hand |
| Pagers.LruPager.PageIt | PA4/PA4/pager-lru.c:20-106 | the whole pager is a clock hand, with the effect on each page that `ClockCalls.ClockPages` describes |
| ClockCalls.NeedIsCurrent | PA4/PA4/pager-lru.c:62-64 | a job needs page p if and only if its statement lies between 128 p and 128 p + 127 |
| ClockCalls.ClockPages | PA4/PA4/pager-lru.c:56-105 | in the order of the slots, jobs whose page is out get the available frames; of each other job whose page is neither in nor coming, page tick % 20 starts on its way out if it is in; nothing else changes |
| ClockCalls.OnlyTheHandsPage | PA4/PA4/pager-lru.c:86-97 | a page that starts on its way out is page tick % 20 of a running job whose page is neither in nor coming |
| ClockCalls.RefusedJobLosesPage | PA4/PA4/pager-lru.c:84-97 | and each such job whose `pagein` is refused loses that page if it is in |
| Pagers.BasicPageIt | PA4/PA4/pager-basic.c:21-58 | the calls of the basic pager, in order, up to the first page-out that is accepted |
| BasicEffects.BasicPages | PA4/PA4/pager-basic.c:31-57 | for the first occupied slot: its job's page comes in if it is out and there is a frame; if it is refused, the first other page that is in or leaving starts on its way out if it is in; nothing else changes, in any state of the machine |
| BasicEffects.NoHeadNoPages | PA4/PA4/pager-basic.c:31-34 | with no active job it does nothing |
| Pagers.SwapOneOut | PA4/PA4/pager-basic.c:43-53 | page-outs are tried in order until one is accepted |
| Termination.ClockTerminates | PA4/PA4/pager-lru.c:59-105 | any generated queue completes with this pager, within 322 ticks for each tick of computation |
| Termination.BasicTerminates | PA4/PA4/pager-basic.c:31-57 | any generated queue completes with this pager, and exactly when: one tick for each tick of computation, 100 for each page of each job's pure run, and one more, with any number of slots |
| Termination.HeadBlockedTicks | PA4/PA4/pager-basic.c:31-57 | a job is blocked at the head at most 100 ticks for each page of its pure run, 101 for the first page of the first job, and never on other pages; by the end of the simulation exactly that often |
| Termination.PagersAgree | PA4/PA4/simulator.c:606-619 | both complete any generated queue, with any numbers of slots, and with the same computation |
| Termination.QueueHalts | PA4/PA4/simulator.c:444-458 | every job of a generated queue halts |
| Termination.ExactComputeBranchy | PA4/PA4/programs.c:19-26 | the compute count of a job of this program in a completed run, in terms of its branch contexts, under any pager |
| Termination.ExactComputeOneLoop | PA4/PA4/programs.c:27-32 | the same for the one-loop program |
| Termination.ExactComputeNested | PA4/PA4/programs.c:33-39 | the same for the nested loops |
| Termination.ExactComputeLinear | PA4/PA4/programs.c:40-44 | the same for the straight-line program: 1913 ticks |
| Termination.ExactComputeBackward | PA4/PA4/programs.c:45-53 | the same for the program with the backward branch, in terms of its tosses |
| MainLoop.LruTick | PA4/PA4/simulator.c:830-836 | a round of the loop with this pager, and when the alarm is on at its end |
| MainLoop.BasicLoopTick | PA4/PA4/simulator.c:830-836 | a round of the loop with the basic pager, at the end of which the alarm is off |
| MainLoop.SimulateAny | PA4/PA4/simulator.c:829-839 | the loop with any pager stops at the first state in which all is done, if it comes to one, and more rounds would change nothing; the scores are those of the run of the generated queue with these calls, and add up to the occupied slots over all ticks |
| MainLoop.SimulateLru | PA4/PA4/simulator.c:829-839 | the whole simulation with this pager ends at the first state of its run in which all is done, with all jobs finished, and returns that state's scores, of which the draws determine the first |
| MainLoop.SimulateBasic | PA4/PA4/simulator.c:829-839 | the whole simulation with the basic pager ends, with all jobs finished, after exactly as many ticks as the draws determine, and returns the scores of the state of its run after them |
| MainLoop.DrawsDetermineQueue | PA4/PA4/simulator.c:444-458 | the draws determine the whole queue |
| MainLoop.DrawsDetermineScore | PA4/PA4/simulator.c:606-619 | a completed simulation has the score that the draws determine, whatever the pager and the number of slots |
| MainLoop.ScoreIsUnique | PA4/PA4/simulator.c:606-619 | the draws determine one compute score only |
| DrawnTimes.ComputeOfBranchy | PA4/PA4/programs.c:19-26 | in a completed run, a job of this program has computed 633 ticks for each true toss and 1403 for each false one among the first number % 20 + 11, and its exit |
| DrawnTimes.ComputeOfOneLoop | PA4/PA4/programs.c:27-32 | 1130 * (number % 30 + 21) + 1 ticks, for the first number of its branch |
| DrawnTimes.ComputeOfNested | PA4/PA4/programs.c:33-39 | 1684 ticks for each of number % 10 + 11 rounds, 517 for each inner count, number % 10 + 10 for the next number in each round, and its exit |
| DrawnTimes.ComputeOfLinear | PA4/PA4/programs.c:40-44 | 1913 ticks |
| DrawnTimes.ComputeOfBackward | PA4/PA4/programs.c:45-53 | 502 ticks for each toss up to the one that brings turn number % 10 + 11 of the loop, 2 for each refusal of the GOTO, and its exit |
| DrawnTimes.ScoreIsDrawn | PA4/PA4/simulator.c:606-619 | the compute score of a completed run is the sum of these numbers over the shuffled queue, whatever the pager and the number of slots |
| Lookup.FirstUnserviced | PA-Three/PA3/multi-lookup.c:40-62 | the scan finds the first unserviced file, with all files before it serviced, or all are serviced |
| LookupFiles.RunKeepsFiles | PA-Three/PA3/multi-lookup.c:34-91 | in every schedule requesters work on different files, push their lines in order, count their claims, and finish only when all files are serviced |
| LookupFiles.ExactlyOnceService | PA-Three/PA3/multi-lookup.c:38-63 | no file is claimed twice, the counters add up to the number of serviced files, and when all requesters have finished every file is claimed and every line pushed |
| LookupFiles.CountersAddUp | PA-Three/PA3/multi-lookup.c:41-47 | the requesters' counters add up to the number of serviced files |
| LookupFiles.NoMorePushes | PA-Three/PA3/multi-lookup.c:50-61 | once all requesters have finished nothing is pushed any more |
| LookupOrder.ClaimsInOrder | PA-Three/PA3/multi-lookup.c:40-48 | in every schedule claim number i is file i, so the serviced files are always the first ones of the list |
| LookupOrder.StackDiscipline | PA-Three/PA3/multi-lookup.c:84-115 | a push puts the requester's next line on top of the stack if there is room, a take removes the top, and no other move touches the stack |
| LookupOrder.WaitsWhenFull | PA-Three/PA3/multi-lookup.c:67-77 | a requester begins to wait if and only if it has a line to push and all 20 places are taken |
| LookupOrder.StackInOrder | PA-Three/PA3/multi-lookup.c:84-115 | in every schedule the lines of one file lie on the stack in their order, until a take from an empty buffer |
| LookupBuffer.StackConservation | PA-Three/PA3/multi-lookup.c:66-115 | if no wait returns to an empty buffer, the position stays in range and every pushed line is in the buffer or taken, exactly once |
| LookupBuffer.SafeExactly | PA-Three/PA3/multi-lookup.c:103-115 | the stack is conserved if and only if no resolver takes from an empty buffer after its wait; otherwise the position is negative |
| LookupBuffer.ReturnsDecide | PA-Three/PA3/multi-lookup.c:108-114 | the lock is held from the return of the wait to the take, so an empty return is what decides |
| LookupBuffer.RunDrains | PA-Three/PA3/multi-lookup.c:103-107 | once a resolver has exited, every line of every file has been taken exactly once |
| LookupHazards.SignalEmptyReachesOne | PA-Three/PA3/multi-lookup.c:69-89 | a signal on `isEmpty` unblocks exactly one waiting resolver, whichever it is, and does nothing if none waits |
| LookupHazards.SignalFullReachesOne | PA-Three/PA3/multi-lookup.c:108-109 | the same for `isFull` and the requesters |
| LookupHazards.BroadcastReachesAll | PA-Three/PA3/multi-lookup.c:56-57 | the broadcast leaves no resolver blocked |
| LookupOrder.RequesterUnblocks | PA-Three/PA3/multi-lookup.c:56-89 | a requester unblocks one waiting resolver when it leaves a file or begins to wait, all of them when it finishes, and no other thread ever |
| LookupOrder.ResolverUnblocks | PA-Three/PA3/multi-lookup.c:108-109 | a resolver unblocks one waiting requester when it begins to wait, and no other thread ever |
| LookupOrder.SpuriousUnblocks | PA-Three/PA3/multi-lookup.c:66-109 | a spurious wake-up unblocks the thread that it names |
| LookupHazards.RunKeepsRoused | PA-Three/PA3/multi-lookup.c:66-115 | in every schedule only threads that wait are ever unblocked |
| LookupHazards.StrandedForever | PA-Three/PA3/multi-lookup.c:103-114 | a resolver that has seen the empty buffer before the last requester finished never exits: it waits for ever, or the position becomes negative |
| LookupHazards.MissedForever | PA-Three/PA3/multi-lookup.c:56-57 | if the last broadcast came before such a resolver waits, nothing but a spurious wake-up ever ends its wait |
| LookupHazards.StrandedUnderflows | PA-Three/PA3/multi-lookup.c:109-114 | once a signal or the broadcast has unblocked such a resolver, its next step takes from position -1 |
| LookupHazards.StolenWakeUp | PA-Three/PA3/multi-lookup.c:108-114 | a signalled resolver takes from position -1 if another one has taken the only line before it gets the lock |
| LookupSchedules.WorkIsDone | PA-Three/PA3/multi-lookup.c:34-115 | for all files and numbers of threads, some schedule without spurious wake-ups services every file, empties the buffer and leaves one requester that has not yet noticed |
| LookupSchedules.FinalBroadcastUnderflows | PA-Three/PA3/multi-lookup.c:56-57 | for all files and numbers of threads, a schedule without spurious wake-ups in which the last broadcast unblocks a resolver, which then takes from position -1; no step before it took from an empty buffer |
| LookupSchedules.MissedBroadcastHangs | PA-Three/PA3/multi-lookup.c:56-57 | for all files and numbers of threads, a schedule without spurious wake-ups after which some resolver never exits, however the threads go on without spurious wake-ups; this includes that another resolver makes the position negative, after which the model stops |
| LookupExits.RunKeepsAlways | PA-Three/PA3/multi-lookup.c:66-115 | in every schedule `buffer_lock` is held by exactly the thread that is in a critical section |
| LookupExits.ExitsExactly | PA-Three/PA3/multi-lookup.c:100-114 | once all requesters have finished, some continuation without spurious wake-ups leads to the exit of a resolver if and only if it has exited; or is not waiting and no take from an empty buffer is at hand; or has been unblocked and more lines are left than the lock's holder will take |
| LookupExits.WaitsExactly | PA-Three/PA3/multi-lookup.c:103-110 | and every such continuation keeps it waiting if and only if it is about to wait or waits, and has not been unblocked or a take from an empty buffer is at hand |
| LookupExits.UnderflowsExactly | PA-Three/PA3/multi-lookup.c:103-114 | and some such continuation takes from an empty buffer if and only if a resolver has been unblocked from its wait and there is no line, or another resolver that can take them all; or such a take has come or is at hand |
| LookupExits.AfterTheLastFinish | PA-Three/PA3/multi-lookup.c:56-114 | these three hold in every state after the last finish that any schedule reaches, spurious wake-ups included |
| LookupExits.EverythingCanEnd | PA-Three/PA3/multi-lookup.c:103-107 | for all files and numbers of threads, a schedule without spurious wake-ups that takes nothing from an empty buffer and ends with all resolvers exited |
| LookupEarly.StolenWakeUpArises | PA-Three/PA3/multi-lookup.c:67-114 | with two resolvers and a line in the first file, a schedule without spurious wake-ups leads from the start to the situation of `StolenWakeUp` |
| LookupEarly.EmptyFileLater | PA-Three/PA3/multi-lookup.c:67-114 | with the buffer empty, while requester 0 looks for files and resolver 0 has not begun, a file without lines that is still to be served leads to a take from position -1 before any requester has finished, whatever the files before it |
| LookupEarly.EarlyUnderflowExactly | PA-Three/PA3/multi-lookup.c:67-114 | from the start, some schedule without spurious wake-ups takes from position -1 before any requester has finished if and only if there are at least two resolvers or some file has no lines |
| LookupProgress.StuckExactly | PA-Three/PA3/multi-lookup.c:66-114 | no thread can move if and only if all requesters have finished and each resolver has exited or waits with nothing to unblock it: there is no deadlock before, whatever signals were lost |
| LookupProgress.RunsAreBounded | PA-Three/PA3/multi-lookup.c:34-115 | in every schedule the threads' moves are at most 8 for each line, 3 for each file, 1 for each requester, 6 for each resolver, 2 for each spurious wake-up, and 7 |
| LookupProgress.RunsEndAlike | PA-Three/PA3/multi-lookup.c:34-115 | in every schedule that takes nothing from an empty buffer, `StuckExactly` holds at each point, and when no thread can move every file has been claimed, every line pushed, and every line taken exactly once, whether or not a resolver has exited |
| LookupThreads.Shared.ClaimFile | PA-Three/PA3/multi-lookup.c:38-63 | the loop over the file list, in place |
| LookupThreads.Shared.PushLine | PA-Three/PA3/multi-lookup.c:67-89 | the next line is pushed, or the thread waits for room, or leaves after the last line |
| LookupThreads.Shared.TakeEntry | PA-Three/PA3/multi-lookup.c:112-115 | the topmost entry is taken, whatever the position |
| LookupThreads.Shared.MoveResolver | PA-Three/PA3/multi-lookup.c:100-115 | a resolver's critical section |
| LookupThreads.Shared.Step | PA-Three/PA3/multi-lookup.c:26-129 | a move of any thread refines the step system |
| LookupThreads.Shared.Happen | PA-Three/PA3/multi-lookup.c:26-129 | so does a spurious wake-up |
| LookupThreads.RunThreads | PA-Three/PA3/multi-lookup.c:26-129 | the memory after any schedule, conserved exactly if no move takes from an empty buffer |

## Left out

- Logging, the CSV files, `allprint`, the interrupt handler, the command line and the clock `sysclock`: output only.
- `blocked[]`, `kind`, `nbcontexts`, `btype` of a context and `extent`: never read by the logic, or only to log.
- The random-number generator and `prob`: draws are arbitrary inputs (`Draws`, `shuffle`). An IF needs draws with
  a hundred changes of value, without which its initialisation would not end.
- BranchContexts.BranchContext.InitIf: does not store the toss after the hundredth run, which the program writes one cell past the table, into a field that is never read.
- Processes.FindBranch: takes the cell before an empty branch table, which the program reads, as one that does not match.
- Integer overflow: `long` and `int` are unbounded here; the tick counter of pager-lru.c and the counters of long runs do not wrap.
- NFOR loops occur in no program; they are initialised and decided as in the source, and no running time is stated for them.
- `pager-predict.c` and `api-test.c`: the first is one of the arbitrary pagers of the general theorems, the second only prints.
- The ratio of the two scores, which is printed as a floating-point number.
- Files, `getline`, `dnslookup`, the logs and the timing of multi-lookup.c: a file is its number of lines, and an entry names a line of a file.
- A signal that unblocks several threads at once, as POSIX.1-2017 allows: here it unblocks exactly one, of the schedule's choice, and
  any further one counts as a spurious wake-up.
- The count and the broadcast of a finishing requester (multi-lookup.c:56-57) are one step, like every other section under a lock; a
  resolver's look at the buffer and its wait are two, since the finished counter is not under `buffer_lock`.
- Fairness in multi-lookup.c: when a given thread gets its turn is not stated. That a run comes to its end needs no fairness,
  since all threads together have a bounded number of moves and one of them can move until the end.
- `main` of multi-lookup.c with no valid file: at least one file is required, since with none a requester uses an uninitialised handle.
- What happens after the position has become negative: the C program's behaviour is undefined from there, and the model stops moving.
- PA-One, PA-Two, `Threads-and-Processes`, `util.c` and the plotting scripts: small exercises and glue with easy claims.
