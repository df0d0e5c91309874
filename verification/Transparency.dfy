/**
 Paging changes when a job computes, never what it computes; and every occupied slot
 accounts for one tick of work, computed or blocked.
 */
module Transparency {
  import opened Machine
  import opened Sums
  import opened Programs
  import opened ControlFlow
  import opened Simulation
  import opened Invariants
  import opened Effects

  // ---------- Each job follows its pure run ----------

  /**
   `j` has come from `j0` by exactly `compute` steps of the pure run; once finished, by
   `compute - 1` steps, onto the first exit of that run.
   */
  ghost predicate Follows(j0: Job, j: Job) {
    && ValidProgram(j0.program) && j.program == j0.program
    && if j.active then Reach(j0.program, j0.control, j.compute, j.control)
       else j.compute > 0 && Reach(j0.program, j0.control, j.compute - 1, j.control)
            && AtExit(j0.program, j.control.pc)
  }

  ghost predicate Transparent(jobs0: seq<Job>, s: State) {
    && |s.jobs| == |jobs0|
    && forall k | 0 <= k < |jobs0| :: Follows(jobs0[k], s.jobs[k])
  }

  lemma StepFollows(j0: Job, j: Job)
    requires ValidJob(j) && Follows(j0, j) && j.active
    ensures Follows(j0, if StepJob(j).1 then StepJob(j).0 else UnloadJob(StepJob(j).0))
  {
    if Timer(j) == 0 && !AtExit(j.program, j.control.pc) {
      ReachSnoc(j.program, j0.control, j.compute, j.control);
    }
  }

  /** An operation changes at most one job's pages, or makes one job's step. */
  lemma DoneToJob(s: State, o: Op, k: nat)
    requires WellFormed(s) && k < |s.jobs|
    ensures var j, j' := s.jobs[k], Do(s, o).jobs[k];
      || j' == j.(pages := j'.pages)
      || (j.active && j' == if StepJob(j).1 then StepJob(j).0 else UnloadJob(StepJob(j).0))
  {
  }

  lemma DoFollows(j0: Job, s: State, o: Op, k: nat)
    requires WellFormed(s) && k < |s.jobs| && Follows(j0, s.jobs[k])
    ensures Follows(j0, Do(s, o).jobs[k])
  {
    DoneToJob(s, o, k);
    if s.jobs[k].active {
      StepFollows(j0, s.jobs[k]);
    }
  }

  lemma DoIsTransparent(jobs0: seq<Job>, s: State, o: Op)
    requires WellFormed(s) && Transparent(jobs0, s)
    ensures Transparent(jobs0, Do(s, o))
  {
    forall k | 0 <= k < |jobs0|
      ensures Follows(jobs0[k], Do(s, o).jobs[k])
    {
      DoFollows(jobs0[k], s, o, k);
    }
  }

  lemma RunIsTransparent(jobs0: seq<Job>, s: State, calls: seq<seq<Op>>, n: nat)
    requires WellFormed(s) && Transparent(jobs0, s) && n <= |calls|
    ensures Transparent(jobs0, Run(s, calls, n))
  {
    var P := (t: State) => WellFormed(t) && Transparent(jobs0, t);
    forall o, t | P(t)
      ensures P(Do(t, o))
    {
      DoIsTransparent(jobs0, t, o);
    }
    RunKeeps(P, s, calls, n);
  }

  lemma TickIsTransparent(jobs0: seq<Job>, s: State, calls: seq<Op>)
    requires WellFormed(s) && Transparent(jobs0, s)
    ensures Transparent(jobs0, AllStep(s)) && Transparent(jobs0, Tick(s)) && Transparent(jobs0, TickWith(s, calls))
  {
    var P := (t: State) => WellFormed(t) && Transparent(jobs0, t);
    forall o, t | P(t)
      ensures P(Do(t, o))
    {
      DoIsTransparent(jobs0, t, o);
    }
    TickKeeps(P, s, calls);
  }

  lemma LoadIsTransparent(jobs: seq<Job>, procs: nat)
    requires forall k | 0 <= k < |jobs| :: FreshJob(jobs[k])
    ensures Transparent(jobs, Load(jobs, procs))
  {
    forall k | 0 <= k < |jobs|
      ensures Follows(jobs[k], jobs[k])
    {
      ReachNothing(jobs[k].program, jobs[k].control);
    }
  }

  /**
   Paging transparency: from a freshly loaded queue, with any number of slots, after any
   number of ticks and whatever the pager has called, every job is where its pure run is.
   */
  lemma PagingTransparency(jobs: seq<Job>, procs: nat, calls: seq<seq<Op>>, n: nat)
    requires forall k | 0 <= k < |jobs| :: FreshJob(jobs[k])
    requires n <= |calls|
    ensures WellFormed(Load(jobs, procs))
    ensures Transparent(jobs, Run(Load(jobs, procs), calls, n))
  {
    LoadInv(jobs, procs);
    LoadIsTransparent(jobs, procs);
    RunIsTransparent(jobs, Load(jobs, procs), calls, n);
  }

  /** A finished job has computed for one tick more than its pure run has steps. */
  lemma FinishedCompute(j0: Job, j: Job, k: nat)
    requires Follows(j0, j) && HaltsIn(j0.program, j0.control, k)
    ensures !j.active ==> j.compute == k + 1
    ensures j.active ==> j.compute <= k
    ensures j.active && j.compute == k ==> AtExit(j.program, j.control.pc)
  {
    if j.active {
      HaltsOnce(j0.program, j0.control, k, j.compute, j.control);
    } else {
      HaltsOnce(j0.program, j0.control, k, j.compute - 1, j.control);
    }
  }

  // ---------- Scores ----------

  function Computes(jobs: seq<Job>): (r: seq<int>)
    ensures |r| == |jobs| && forall k | 0 <= k < |jobs| :: r[k] == jobs[k].compute
  {
    seq(|jobs|, k requires 0 <= k < |jobs| => jobs[k].compute)
  }

  /** The compute score. */
  function Compute(s: State): int {
    Sum(Computes(s.jobs))
  }

  function Blocks(jobs: seq<Job>): (r: seq<int>)
    ensures |r| == |jobs| && forall k | 0 <= k < |jobs| :: r[k] == jobs[k].block
  {
    seq(|jobs|, k requires 0 <= k < |jobs| => jobs[k].block)
  }

  /** A completed run of a freshly loaded queue. */
  ghost predicate Completed(jobs: seq<Job>, s: State) {
    Inv(s) && Transparent(jobs, s) && |s.slots| > 0 && AllDone(s)
  }

  lemma RunCompletes(jobs: seq<Job>, procs: nat, calls: seq<seq<Op>>, n: nat)
    requires forall k | 0 <= k < |jobs| :: FreshJob(jobs[k])
    requires procs > 0 && n <= |calls|
    requires WellFormed(Load(jobs, procs)) && AllDone(Run(Load(jobs, procs), calls, n))
    ensures Completed(jobs, Run(Load(jobs, procs), calls, n))
  {
    PagingTransparency(jobs, procs, calls, n);
    LoadInv(jobs, procs);
    RunKeepsInv(Load(jobs, procs), calls, n);
  }

  /**
   Runs of the same queue end with the same computation, job by job and in the score,
   whatever the pagers and the numbers of slots.
   */
  lemma ScoresAgree(jobs: seq<Job>, s: State, s': State)
    requires Completed(jobs, s) && Completed(jobs, s')
    ensures Computes(s.jobs) == Computes(s'.jobs)
    ensures forall k | 0 <= k < |jobs| :: s.jobs[k].control == s'.jobs[k].control
    ensures s.avail == s'.avail == PHYSICALPAGES
  {
    AllDoneMeansFinished(s);
    AllDoneMeansFinished(s');
    forall k | 0 <= k < |jobs|
      ensures s.jobs[k].compute == s'.jobs[k].compute && s.jobs[k].control == s'.jobs[k].control
    {
      SameFinish(jobs[k], s.jobs[k], s'.jobs[k]);
    }
  }

  lemma SameFinish(j0: Job, j: Job, j': Job)
    requires Follows(j0, j) && Follows(j0, j') && !j.active && !j'.active
    ensures j.compute == j'.compute && j.control == j'.control
  {
    FinishedCompute(j0, j', j.compute - 1);
    ReachOnce(j0.program, j0.control, j.compute - 1, j.control, j'.control);
  }

  // ---------- Tick accounting ----------

  /** Ticks of work, computed or blocked. */
  function Works(jobs: seq<Job>): (r: seq<int>)
    ensures |r| == |jobs| && forall k | 0 <= k < |jobs| :: r[k] == jobs[k].compute + jobs[k].block
  {
    seq(|jobs|, k requires 0 <= k < |jobs| => jobs[k].compute + jobs[k].block)
  }

  /** One for every occupied slot. */
  function OccupiedFlags(s: State): (r: seq<int>)
    requires WellFormed(s)
    ensures |r| == |s.slots| && forall i | 0 <= i < |s.slots| :: r[i] == (if Occupied(s, i) then 1 else 0)
  {
    seq(|s.slots|, i requires 0 <= i < |s.slots| => if Occupied(s, i) then 1 else 0)
  }

  /** How many slots are occupied. */
  function OccupiedSlots(s: State): int
    requires WellFormed(s)
  {
    Sum(OccupiedFlags(s))
  }

  lemma SteppedWork(j: Job)
    requires ValidJob(j) && j.active
    ensures Stepped(j).compute + Stepped(j).block == j.compute + j.block + 1
  {
  }

  lemma StepSlotWork(s: State, i: nat, k: nat)
    requires WellFormed(s) && Holds(s, i, k) && k < |s.jobs| && s.jobs[k].active
    ensures Sum(Works(StepSlot(s, i).jobs)) == Sum(Works(s.jobs)) + 1
  {
    var j := Stepped(s.jobs[k]);
    SteppedWork(s.jobs[k]);
    StepSlotEffect(s, i, k);
    assert Works(s.jobs[k := j]) == Works(s.jobs)[k := j.compute + j.block];
    SumUpdate(Works(s.jobs), |s.jobs|, k, j.compute + j.block);
  }

  lemma StepPassWorkNext(s: State, n: nat, u: State)
    requires Inv(s) && WellFormed(u) && |u.slots| == |s.slots| && |u.jobs| == |s.jobs|
    requires n < |s.slots| && StepPassed(s, n, u)
    ensures Sum(Works(StepSlot(u, n).jobs)) == Sum(Works(u.jobs)) + (if Occupied(s, n) then 1 else 0)
  {
    HeldBelowNext(s, n);
    if s.slots[n].Some? {
      StepSlotWork(u, n, s.slots[n].value);
    } else {
      assert StepSlot(u, n) == u;
    }
  }

  lemma StepPassWorkOne(s: State, n: nat)
    requires Inv(s) && n < |s.slots|
    ensures var ops := StepOps(|s.slots|);
      Sum(Works(DoTo(s, ops, n + 1).jobs)) == Sum(Works(DoTo(s, ops, n).jobs)) + (if Occupied(s, n) then 1 else 0)
  {
    StepPass(s, n);
    OneTurn(s, n);
    StepPassWorkNext(s, n, DoTo(s, StepOps(|s.slots|), n));
  }

  /** The work done when each of the slots has its turn, and at the end. */
  function TurnWorkCounts(s: State): (r: seq<int>)
    requires WellFormed(s)
    ensures |r| == |s.slots| + 1
    ensures forall n | 0 <= n <= |s.slots| :: r[n] == Sum(Works(DoTo(s, StepOps(|s.slots|), n).jobs))
  {
    seq(|s.slots| + 1, n requires 0 <= n <= |s.slots| => Sum(Works(DoTo(s, StepOps(|s.slots|), n).jobs)))
  }

  /** `allstep` adds exactly one tick of work for every slot that was occupied when it began. */
  lemma AllStepWork(s: State)
    requires Inv(s)
    ensures Sum(Works(AllStep(s).jobs)) == Sum(Works(s.jobs)) + OccupiedSlots(s)
  {
    var work, occupied := TurnWorkCounts(s), OccupiedFlags(s);
    forall n | 0 <= n < |s.slots|
      ensures work[n + 1] == work[n] + occupied[n]
    {
      StepPassWorkOne(s, n);
    }
    DifferencesAddUp(work, occupied, |s.slots|);
    assert DoTo(s, StepOps(|s.slots|), 0) == s;
  }

  /** Only `allstep` does work. */
  ghost predicate SameWork(s: State, t: State) {
    && |t.jobs| == |s.jobs|
    && forall k | 0 <= k < |s.jobs| :: t.jobs[k].compute == s.jobs[k].compute && t.jobs[k].block == s.jobs[k].block
  }

  lemma {:induction false} PagingDoesNoWork(s: State, ops: seq<Op>, n: nat)
    requires WellFormed(s) && n <= |ops| && forall i | 0 <= i < n :: !ops[i].Step?
    ensures SameWork(s, DoTo(s, ops, n))
  {
    if n > 0 {
      PagingDoesNoWork(s, ops, n - 1);
    }
  }

  lemma SameWorkSum(s: State, t: State)
    requires SameWork(s, t)
    ensures Works(t.jobs) == Works(s.jobs)
  {
  }

  lemma TickWork(s: State, calls: seq<Op>)
    requires Inv(s) && IsCalls(calls)
    ensures Sum(Works(TickWith(s, calls).jobs)) == Sum(Works(s.jobs)) + OccupiedSlots(s)
  {
    AllStepWork(s);
    PagingDoesNoWork(AllStep(s), AgeOps(|s.slots|), |s.slots|);
    SameWorkSum(AllStep(s), Tick(s));
    PagingDoesNoWork(Tick(s), calls, |calls|);
    SameWorkSum(Tick(s), TickWith(s, calls));
  }

  /** The occupied slots at the start of each of the first `n` ticks. */
  function OccupiedCounts(s: State, calls: seq<seq<Op>>, n: nat): (r: seq<int>)
    requires WellFormed(s) && n <= |calls|
    ensures |r| == n && forall t | 0 <= t < n :: r[t] == OccupiedSlots(Run(s, calls, t))
  {
    seq(n, t requires 0 <= t < n => OccupiedSlots(Run(s, calls, t)))
  }

  /** The work done by the start of each of the first `n + 1` ticks. */
  function WorkCounts(s: State, calls: seq<seq<Op>>, n: nat): (r: seq<int>)
    requires WellFormed(s) && n <= |calls|
    ensures |r| == n + 1 && forall t | 0 <= t <= n :: r[t] == Sum(Works(Run(s, calls, t).jobs))
  {
    seq(n + 1, t requires 0 <= t <= n => Sum(Works(Run(s, calls, t).jobs)))
  }

  lemma RunWorkOne(s: State, calls: seq<seq<Op>>, t: nat)
    requires Inv(s) && t < |calls| && IsCalls(calls[t])
    ensures Sum(Works(Run(s, calls, t + 1).jobs)) == Sum(Works(Run(s, calls, t).jobs)) + OccupiedSlots(Run(s, calls, t))
  {
    RunKeepsInv(s, calls, t);
    TickWork(Run(s, calls, t), calls[t]);
  }

  lemma RunWork(s: State, calls: seq<seq<Op>>, n: nat)
    requires Inv(s) && n <= |calls| && PagerCalls(calls)
    ensures Sum(Works(Run(s, calls, n).jobs)) == Sum(Works(s.jobs)) + Sum(OccupiedCounts(s, calls, n))
  {
    var work, occupied := WorkCounts(s, calls, n), OccupiedCounts(s, calls, n);
    forall t | 0 <= t < n
      ensures work[t + 1] == work[t] + occupied[t]
    {
      RunWorkOne(s, calls, t);
      assert work[t + 1] == Sum(Works(Run(s, calls, t + 1).jobs));
    }
    DifferencesAddUp(work, occupied, n);
    NothingRun(s, calls);
  }

  lemma NothingRun(s: State, calls: seq<seq<Op>>)
    requires WellFormed(s)
    ensures Run(s, calls, 0) == s
  {
  }

  lemma {:induction false} WorkIsComputePlusBlock(jobs: seq<Job>, n: nat)
    requires n <= |jobs|
    ensures SumTo(Works(jobs), n) == SumTo(Computes(jobs), n) + SumTo(Blocks(jobs), n)
  {
    if n > 0 {
      WorkIsComputePlusBlock(jobs, n - 1);
    }
  }

  lemma WorkSplits(jobs: seq<Job>)
    ensures Sum(Works(jobs)) == Sum(Computes(jobs)) + Sum(Blocks(jobs))
  {
    WorkIsComputePlusBlock(jobs, |jobs|);
  }

  lemma FreshWork(jobs: seq<Job>)
    requires forall k | 0 <= k < |jobs| :: FreshJob(jobs[k])
    ensures Sum(Works(jobs)) == 0
  {
    SumOfZeros(Works(jobs), |jobs|);
  }

  /** The two scores of a run from a fresh queue add up to its occupied slots over all ticks. */
  lemma ScoresAddUp(jobs: seq<Job>, procs: nat, calls: seq<seq<Op>>, n: nat)
    requires forall k | 0 <= k < |jobs| :: FreshJob(jobs[k])
    requires n <= |calls| && PagerCalls(calls) && WellFormed(Load(jobs, procs))
    ensures var s := Load(jobs, procs); var t := Run(s, calls, n);
      Sum(Computes(t.jobs)) + Sum(Blocks(t.jobs)) == Sum(OccupiedCounts(s, calls, n))
  {
    LoadInv(jobs, procs);
    RunWork(Load(jobs, procs), calls, n);
    FreshWork(jobs);
    WorkSplits(Run(Load(jobs, procs), calls, n).jobs);
  }

  // ---------- Progress ----------

  ghost predicate IsCalls(calls: seq<Op>) {
    forall c | 0 <= c < |calls| :: IsCall(calls[c])
  }

  /** No job's compute count ever falls. */
  ghost predicate NotLess(s: State, t: State) {
    |t.jobs| == |s.jobs| && forall k | 0 <= k < |s.jobs| :: s.jobs[k].compute <= t.jobs[k].compute
  }

  lemma NotLessSum(s: State, t: State)
    requires NotLess(s, t)
    ensures Sum(Computes(s.jobs)) <= Sum(Computes(t.jobs))
    ensures Sum(Computes(s.jobs)) == Sum(Computes(t.jobs)) ==>
      forall k | 0 <= k < |s.jobs| :: s.jobs[k].compute == t.jobs[k].compute
  {
    SumOrder(Computes(s.jobs), Computes(t.jobs), |s.jobs|);
  }

  lemma SteppedComputes(j: Job)
    requires ValidJob(j)
    ensures j.compute <= Stepped(j).compute
    ensures j.active && Timer(j) == 0 ==> j.compute < Stepped(j).compute
  {
  }

  /** `allstep` takes no computation back, and every job whose page is in computes. */
  lemma AllStepComputes(s: State)
    requires Inv(s)
    ensures Sum(Computes(s.jobs)) <= Sum(Computes(AllStep(s).jobs))
    ensures !Stalled(s) ==> Sum(Computes(s.jobs)) < Sum(Computes(AllStep(s).jobs))
  {
    var t := AllStep(s);
    AllStepEffect(s);
    forall k | 0 <= k < |s.jobs|
      ensures s.jobs[k].compute <= t.jobs[k].compute
    {
      SteppedComputes(s.jobs[k]);
    }
    NotLessSum(s, t);
    if !Stalled(s) {
      var k :| 0 <= k < |s.jobs| && Running(s, k) && Timer(s.jobs[k]) == 0;
      var i :| Holds(s, i, k);
      SteppedComputes(s.jobs[k]);
    }
  }

  /** The total compute count never falls, and grows in every tick that is not stalled. */
  lemma TickComputes(s: State, calls: seq<Op>)
    requires Inv(s) && IsCalls(calls)
    ensures Sum(Computes(s.jobs)) <= Sum(Computes(TickWith(s, calls).jobs))
    ensures !Stalled(s) ==> Sum(Computes(s.jobs)) < Sum(Computes(TickWith(s, calls).jobs))
  {
    AllStepComputes(s);
    PagingDoesNoWork(AllStep(s), AgeOps(|s.slots|), |s.slots|);
    SameWorkComputes(AllStep(s), Tick(s));
    PagingDoesNoWork(Tick(s), calls, |calls|);
    SameWorkComputes(Tick(s), TickWith(s, calls));
  }

  lemma SameWorkComputes(s: State, t: State)
    requires SameWork(s, t)
    ensures Computes(t.jobs) == Computes(s.jobs)
  {
  }
}
