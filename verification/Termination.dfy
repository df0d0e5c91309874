/** Simulations of the five programs end, with either pager, and with the same score. */
module Termination {
  import opened Machine
  import opened Sums
  import opened Programs
  import opened BranchEngine
  import opened ControlFlow
  import opened RunningTime
  import opened BranchingTime
  import opened Simulation
  import opened Invariants
  import opened Transparency
  import opened Iteration
  import opened BasicPaging
  import opened BasicTiming
  import opened ClockHand
  import opened ClockPaging

  // ---------- The pager of pager-lru.c ----------

  /** A reachable state of a simulation of `jobs0`, whose jobs halt at `times`. */
  ghost predicate ClockReady(jobs0: seq<Job>, times: seq<nat>, s: State) {
    Inv(s) && Transparent(jobs0, s) && HaltTimes(jobs0, times)
  }

  /** The compute score of a completed run. */
  function FinalScore(times: seq<nat>): int {
    Sum(FinalComputes(times))
  }

  function FinalComputes(times: seq<nat>): (r: seq<int>)
    ensures |r| == |times| && forall k | 0 <= k < |times| :: r[k] == times[k] + 1
  {
    seq(|times|, k requires 0 <= k < |times| => times[k] + 1)
  }

  /** The score stays within the final one, and below it while some job is active. */
  lemma ScoreBound(jobs0: seq<Job>, times: seq<nat>, s: State)
    requires ClockReady(jobs0, times, s)
    ensures Compute(s) <= FinalScore(times)
    ensures !AllDone(s) ==> Compute(s) < FinalScore(times)
  {
    forall k | 0 <= k < |s.jobs|
      ensures s.jobs[k].compute <= times[k] + 1
      ensures s.jobs[k].active ==> s.jobs[k].compute < times[k] + 1
    {
      FinishedCompute(jobs0[k], s.jobs[k], times[k]);
    }
    SumOrder(Computes(s.jobs), FinalComputes(times), |s.jobs|);
  }

  lemma ClockTickKeepsReady(jobs0: seq<Job>, times: seq<nat>, s: State, tick: nat)
    requires ClockReady(jobs0, times, s)
    ensures ClockReady(jobs0, times, ClockTick(s, tick))
  {
    TickIsTransparent(jobs0, s, []);
    var P := TransparentTo(jobs0);
    forall o: Op
      ensures Keeps(P, o)
    {
      OpsKeepTransparent(jobs0, o);
    }
    ClockToKeeps(P, Tick(s), |s.slots|, tick);
    assert P(Clock(Tick(s), tick));
    ClockTickComputes(s, tick);
  }

  ghost function TransparentTo(jobs0: seq<Job>): State -> bool {
    t => WellFormed(t) && Transparent(jobs0, t)
  }

  lemma OpsKeepTransparent(jobs0: seq<Job>, o: Op)
    ensures Keeps(TransparentTo(jobs0), o)
  {
    forall t | TransparentTo(jobs0)(t)
      ensures TransparentTo(jobs0)(Do(t, o))
    {
      DoIsTransparent(jobs0, t, o);
    }
  }

  ghost function ClockGood(jobs0: seq<Job>, times: seq<nat>): ((State, nat)) -> bool {
    (c: (State, nat)) => ClockReady(jobs0, times, c.0)
  }

  ghost function ClockDone(): ((State, nat)) -> bool {
    (c: (State, nat)) => WellFormed(c.0) ==> AllDone(c.0)
  }

  ghost function ScoreLeft(times: seq<nat>): ((State, nat)) -> int {
    (c: (State, nat)) => FinalScore(times) - Compute(c.0)
  }

  lemma StrideKeepsReady(jobs0: seq<Job>, times: seq<nat>, c: (State, nat), n: nat)
    requires ClockReady(jobs0, times, c.0)
    ensures ClockReady(jobs0, times, Iterate(ClockNext(), c, n).0)
  {
    var P := ClockGood(jobs0, times);
    forall d | P(d)
      ensures P(ClockNext()(d))
    {
      ClockTickKeepsReady(jobs0, times, d.0, d.1);
    }
    IterateKeeps(ClockNext(), P, c, n);
    assert P(Iterate(ClockNext(), c, n));
  }

  lemma StrideFalls(jobs0: seq<Job>, times: seq<nat>, c: (State, nat), m: nat)
    requires m == PROGRESS
    ensures Falls(Stride(ClockNext(), m), ClockGood(jobs0, times), ClockDone(), ScoreLeft(times), c)
  {
    if ClockReady(jobs0, times, c.0) && !AllDone(c.0) {
      StrideKeepsReady(jobs0, times, c, m);
      ScoreBound(jobs0, times, Iterate(ClockNext(), c, m).0);
      ClockProgress(c.0, c.1);
      assert c == (c.0, c.1);
    }
  }

  lemma StridesFall(jobs0: seq<Job>, times: seq<nat>, m: nat)
    requires m == PROGRESS
    ensures AlwaysFalls(Stride(ClockNext(), m), ClockGood(jobs0, times), ClockDone(), ScoreLeft(times))
  {
    forall c
      ensures Falls(Stride(ClockNext(), m), ClockGood(jobs0, times), ClockDone(), ScoreLeft(times), c)
    {
      StrideFalls(jobs0, times, c, m);
    }
  }

  lemma ScoreLeftStarts(jobs0: seq<Job>, times: seq<nat>, c: (State, nat))
    requires ClockReady(jobs0, times, c.0)
    ensures ClockGood(jobs0, times)(c) && ScoreLeft(times)(c) == FinalScore(times) - Compute(c.0) >= 0
  {
    ScoreBound(jobs0, times, c.0);
  }

  /** All is done within PROGRESS ticks for every tick of computation. */
  lemma ClockEnds(jobs0: seq<Job>, times: seq<nat>, c: (State, nat), m: nat) returns (n: nat)
    requires ClockReady(jobs0, times, c.0) && m == PROGRESS
    ensures n <= ScoreLeft(times)(c) * m
    ensures ClockGood(jobs0, times)(Iterate(ClockNext(), c, n)) && ClockDone()(Iterate(ClockNext(), c, n))
  {
    ScoreLeftStarts(jobs0, times, c);
    StridesFall(jobs0, times, m);
    n := DescendByStrides(ClockNext(), ClockGood(jobs0, times), ClockDone(), ScoreLeft(times), c, m);
  }

  // ---------- From the generated queue ----------

  /** A job of one of the five programs, as `process_load` leaves it for some random draws. */
  ghost predicate GeneratedJob(j: Job) {
    FreshJob(j) && exists kind: nat :: IsKind(j, kind)
  }

  ghost predicate IsKind(j: Job, kind: nat) {
    kind < |PROGRAMS| && j.program == PROGRAMS[kind] && Loaded(PROGRAMS[kind], j.control.ctxs)
  }

  ghost predicate Generated(jobs: seq<Job>) {
    forall k | 0 <= k < |jobs| :: GeneratedJob(jobs[k])
  }

  lemma JobHalts(j: Job) returns (time: nat)
    requires GeneratedJob(j)
    ensures HaltsAt(j, time)
  {
    var kind: nat :| IsKind(j, kind);
    time := EveryProgramHalts(kind, j.control.ctxs);
    assert j.control == Start(j.control.ctxs);
  }

  /** Every generated queue has its halting times. */
  lemma {:induction false} QueueHalts(jobs: seq<Job>) returns (times: seq<nat>)
    requires Generated(jobs)
    ensures HaltTimes(jobs, times)
  {
    if |jobs| == 0 {
      times := [];
    } else {
      var last := |jobs| - 1;
      var first := QueueHalts(jobs[..last]);
      var time := JobHalts(jobs[last]);
      times := first + [time];
      OneMoreHalts(jobs, first, time);
    }
  }

  lemma OneMoreHalts(jobs: seq<Job>, times: seq<nat>, time: nat)
    requires |jobs| > 0 && HaltTimes(jobs[..|jobs| - 1], times)
    requires HaltsAt(jobs[|jobs| - 1], time)
    ensures HaltTimes(jobs, times + [time])
  {
    forall k | 0 <= k < |jobs|
      ensures HaltsAt(jobs[k], (times + [time])[k])
    {
      HaltsAtIndex(jobs, times, time, k);
    }
  }

  lemma HaltsAtIndex(jobs: seq<Job>, times: seq<nat>, time: nat, k: nat)
    requires |jobs| > 0 && HaltTimes(jobs[..|jobs| - 1], times) && k < |jobs|
    requires HaltsAt(jobs[|jobs| - 1], time)
    ensures HaltsAt(jobs[k], (times + [time])[k])
  {
    if k < |jobs| - 1 {
      assert HaltsAt(jobs[..|jobs| - 1][k], times[k]);
    }
  }

  lemma FreshQueue(jobs: seq<Job>)
    requires Generated(jobs)
    ensures forall k | 0 <= k < |jobs| :: FreshJob(jobs[k])
  {
    forall k | 0 <= k < |jobs|
      ensures FreshJob(jobs[k])
    {
      assert GeneratedJob(jobs[k]);
    }
  }

  lemma LoadIsReady(jobs: seq<Job>, procs: nat, times: seq<nat>)
    requires Generated(jobs) && HaltTimes(jobs, times)
    ensures ClockReady(jobs, times, Load(jobs, procs))
    ensures Compute(Load(jobs, procs)) == 0
  {
    FreshQueue(jobs);
    LoadInv(jobs, procs);
    LoadIsTransparent(jobs, procs);
    SumOfZeros(Computes(jobs), |jobs|);
  }

  /** With the pager of pager-lru.c the simulation of any generated queue ends. */
  lemma ClockTerminates(jobs: seq<Job>, procs: nat, times: seq<nat>) returns (n: nat)
    requires Generated(jobs) && HaltTimes(jobs, times) && procs > 0
    ensures n <= FinalScore(times) * PROGRESS
    ensures Completed(jobs, Iterate(ClockNext(), (Load(jobs, procs), 1), n).0)
  {
    n := ClockEndsFrom(jobs, procs, times, (Load(jobs, procs), 1), PROGRESS);
  }

  lemma LoadScore(jobs: seq<Job>, procs: nat, times: seq<nat>, c: (State, nat))
    requires Generated(jobs) && c.0 == Load(jobs, procs)
    ensures ScoreLeft(times)(c) == FinalScore(times)
  {
    FreshQueue(jobs);
    SumOfZeros(Computes(jobs), |jobs|);
  }

  lemma ClockEndsFrom(jobs: seq<Job>, procs: nat, times: seq<nat>, c: (State, nat), m: nat) returns (n: nat)
    requires Generated(jobs) && HaltTimes(jobs, times) && procs > 0 && c.0 == Load(jobs, procs) && m == PROGRESS
    ensures n <= FinalScore(times) * m
    ensures Completed(jobs, Iterate(ClockNext(), c, n).0)
  {
    LoadIsReady(jobs, procs, times);
    LoadScore(jobs, procs, times, c);
    n := ClockEnds(jobs, times, c, m);
    SlotsAreKept(procs, c, n);
    ClockCompletes(jobs, procs, times, Iterate(ClockNext(), c, n));
  }

  lemma SlotsAreKept(procs: nat, c: (State, nat), n: nat)
    requires SlotCount(procs)(c)
    ensures SlotCount(procs)(Iterate(ClockNext(), c, n))
  {
    IterateKeeps(ClockNext(), SlotCount(procs), c, n);
  }

  lemma ClockCompletes(jobs: seq<Job>, procs: nat, times: seq<nat>, c: (State, nat))
    requires ClockGood(jobs, times)(c) && ClockDone()(c) && SlotCount(procs)(c) && procs > 0
    ensures Completed(jobs, c.0)
  {
  }

  ghost function SlotCount(procs: nat): ((State, nat)) -> bool {
    (c: (State, nat)) => |c.0.slots| == procs
  }

  ghost function SlotsStay(procs: nat): State -> bool {
    (s: State) => |s.slots| == procs
  }

  lemma LoadIsHeadOnly(jobs: seq<Job>, procs: nat, times: seq<nat>)
    requires Generated(jobs) && HaltTimes(jobs, times)
    ensures BasicReady(jobs, times, Load(jobs, procs))
  {
    FreshQueue(jobs);
    LoadIsReady(jobs, procs, times);
    FreshIsHeadOnly(Load(jobs, procs));
  }

  lemma FreshIsHeadOnly(s: State)
    requires WellFormed(s) && forall k | 0 <= k < |s.jobs| :: FreshJob(s.jobs[k])
    ensures HeadOnly(s)
  {
    forall k | 0 <= k < |s.jobs|
      ensures NoneLeaving(s.jobs[k]) && s.jobs[k].pages == AllOut()
    {
    }
  }

  lemma LoadIsUnserved(jobs: seq<Job>, procs: nat, times: seq<nat>)
    requires Generated(jobs) && HaltTimes(jobs, times)
    ensures Unserved(jobs, times, Load(jobs, procs)) && SameQueue(jobs, times, Load(jobs, procs))
  {
    FreshQueue(jobs);
    LoadIsHeadOnly(jobs, procs, times);
    ReadyIsSameQueue(jobs, times, Load(jobs, procs));
  }

  /** The first job of the queue is the first one at the head. */
  lemma LoadHead(jobs: seq<Job>, procs: nat)
    requires Generated(jobs) && procs > 0
    ensures WellFormed(Load(jobs, procs))
    ensures HeadJob(Load(jobs, procs)) == if |jobs| > 0 then Some(0) else None
  {
    FreshQueue(jobs);
    if |jobs| > 0 {
      FirstIs(Load(jobs, procs), 0);
    }
  }

  lemma {:induction false} SumScaled(xs: seq<int>, ys: seq<int>, zs: seq<int>, c: int, n: nat)
    requires n <= |xs| && n <= |ys| && n <= |zs| && forall k | 0 <= k < n :: zs[k] == xs[k] + c * ys[k]
    ensures SumTo(zs, n) == SumTo(xs, n) + c * SumTo(ys, n)
  {
    if n > 0 {
      SumScaled(xs, ys, zs, c, n - 1);
    }
  }

  /** What a queue takes the basic pager: its computation, and one swap for every page that a job visits. */
  lemma LoadLeft(jobs: seq<Job>, procs: nat, times: seq<nat>)
    requires Generated(jobs) && HaltTimes(jobs, times) && SameQueue(jobs, times, Load(jobs, procs))
    ensures Left(jobs, times, Load(jobs, procs)) == FinalScore(times) + PAGEWAIT * Sum(VisitCounts(jobs, times))
  {
    var lefts := Lefts(jobs, times, Load(jobs, procs));
    FreshQueue(jobs);
    forall k | 0 <= k < |jobs|
      ensures lefts[k] == FinalComputes(times)[k] + PAGEWAIT * VisitCounts(jobs, times)[k]
    {
      FreshLeft(jobs[k], times[k]);
    }
    SumScaled(FinalComputes(times), VisitCounts(jobs, times), lefts, PAGEWAIT, |jobs|);
  }

  /** How long the simulation of a queue takes with the basic pager. */
  ghost function BasicLength(jobs: seq<Job>, times: seq<nat>): int
    requires HaltTimes(jobs, times)
  {
    if |jobs| == 0 then 0 else 1 + FinalScore(times) + PAGEWAIT * Sum(VisitCounts(jobs, times))
  }

  lemma EmptyQueueIsDone(jobs: seq<Job>, procs: nat, times: seq<nat>)
    requires Generated(jobs) && HaltTimes(jobs, times) && procs > 0 && |jobs| == 0
    ensures Completed(jobs, Load(jobs, procs))
  {
    LoadIsReady(jobs, procs, times);
  }

  lemma BasicRun(jobs: seq<Job>, procs: nat, times: seq<nat>, m: nat)
    requires Generated(jobs) && HaltTimes(jobs, times) && procs > 0 && |jobs| > 0 && m <= BasicLength(jobs, times)
    ensures var t := Iterate(BasicNext(), Load(jobs, procs), m);
      && BasicReady(jobs, times, t) && |t.slots| == procs && (AllDone(t) <==> m == BasicLength(jobs, times))
  {
    LoadIsUnserved(jobs, procs, times);
    LoadHead(jobs, procs);
    LoadLeft(jobs, procs, times);
    BasicEnds(jobs, times, Load(jobs, procs), m, BasicLength(jobs, times) - m);
  }

  lemma BasicDone(jobs: seq<Job>, procs: nat, times: seq<nat>, m: nat)
    requires Generated(jobs) && HaltTimes(jobs, times) && procs > 0 && |jobs| > 0 && m <= BasicLength(jobs, times)
    ensures var t := Iterate(BasicNext(), Load(jobs, procs), m);
      (Done()(t) <==> m == BasicLength(jobs, times)) && (m == BasicLength(jobs, times) ==> Completed(jobs, t))
  {
    BasicRun(jobs, procs, times, m);
  }

  lemma BasicDoneThen(jobs: seq<Job>, procs: nat, times: seq<nat>, n: nat)
    requires Generated(jobs) && HaltTimes(jobs, times) && procs > 0 && |jobs| > 0 && n == BasicLength(jobs, times)
    ensures Completed(jobs, Iterate(BasicNext(), Load(jobs, procs), n))
    ensures forall m | 0 <= m < n :: !Done()(Iterate(BasicNext(), Load(jobs, procs), m))
  {
    BasicDone(jobs, procs, times, n);
    forall m | 0 <= m < n
      ensures !Done()(Iterate(BasicNext(), Load(jobs, procs), m))
    {
      BasicDone(jobs, procs, times, m);
    }
  }

  lemma BasicLengthPositive(jobs: seq<Job>, procs: nat, times: seq<nat>)
    requires Generated(jobs) && HaltTimes(jobs, times) && procs > 0
    ensures BasicLength(jobs, times) >= 0
  {
    if |jobs| > 0 {
      LoadIsUnserved(jobs, procs, times);
      LoadLeft(jobs, procs, times);
      LeftIsZeroAtTheEnd(jobs, times, Load(jobs, procs));
    }
  }

  /**
   With the basic pager the simulation of any generated queue ends, and exactly when: after one tick for
   each tick of computation, PAGEWAIT for each page of each job's pure run, and one, with any number of slots.
   */
  lemma BasicTerminates(jobs: seq<Job>, procs: nat, times: seq<nat>) returns (n: nat)
    requires Generated(jobs) && HaltTimes(jobs, times) && procs > 0
    ensures n == if |jobs| == 0 then 0 else 1 + FinalScore(times) + PAGEWAIT * Sum(VisitCounts(jobs, times))
    ensures Completed(jobs, Iterate(BasicNext(), Load(jobs, procs), n))
    ensures forall m | 0 <= m < n :: !Done()(Iterate(BasicNext(), Load(jobs, procs), m))
  {
    BasicLengthPositive(jobs, procs, times);
    n := BasicLength(jobs, times);
    if |jobs| == 0 {
      EmptyQueueIsDone(jobs, procs, times);
    } else {
      BasicDoneThen(jobs, procs, times, n);
    }
  }

  /** A swap for a page that the job visits, and the lost first tick for the first page of the first job. */
  ghost function MostBlocked(jobs: seq<Job>, times: seq<nat>, k: nat, p: nat): nat
    requires |jobs| == |times| && k < |jobs| && ValidProgram(jobs[k].program)
  {
    if !Visits(jobs[k], times[k], p) then 0
    else if k == 0 && p == 0 then PAGEWAIT + 1
    else PAGEWAIT
  }

  lemma LoadWait(jobs: seq<Job>, procs: nat, times: seq<nat>, k: nat, p: nat)
    requires Generated(jobs) && |jobs| == |times| && procs > 0 && k < |jobs| && p < MAXPROCPAGES
    requires ValidProgram(jobs[k].program)
    ensures WaitAt(jobs, times, Load(jobs, procs), k, p, 0) == MostBlocked(jobs, times, k, p)
  {
    FreshQueue(jobs);
    LoadHead(jobs, procs);
    if k == 0 && p == 0 {
      ReachNothing(jobs[k].program, jobs[k].control);
    }
  }

  lemma EndWait(jobs: seq<Job>, times: seq<nat>, s: State, k: nat, p: nat, n: nat)
    requires |jobs| == |times| && k < |jobs| && ValidProgram(jobs[k].program)
    requires Completed(jobs, Iterate(BasicNext(), s, n)) && n > 0
    ensures WaitAt(jobs, times, s, k, p, n) == 0
  {
    AllDoneMeansFinished(Iterate(BasicNext(), s, n));
  }

  lemma BlockedSoFar(jobs: seq<Job>, procs: nat, times: seq<nat>, k: nat, p: nat, n: nat)
    requires Generated(jobs) && HaltTimes(jobs, times) && procs > 0 && k < |jobs| && p < MAXPROCPAGES
    requires ValidProgram(jobs[k].program)
    ensures BlockedTicks(Load(jobs, procs), k, p, n)
         == MostBlocked(jobs, times, k, p) - WaitAt(jobs, times, Load(jobs, procs), k, p, n)
  {
    LoadIsUnserved(jobs, procs, times);
    LoadHead(jobs, procs);
    LoadWait(jobs, procs, times, k, p);
    HeadBlocks(jobs, times, Load(jobs, procs), k, p, n);
  }

  lemma CompletedLater(jobs: seq<Job>, procs: nat, s: State)
    requires Generated(jobs) && |jobs| > 0 && procs > 0 && Completed(jobs, s)
    ensures s != Load(jobs, procs)
  {
    LoadHead(jobs, procs);
  }

  /** At the head a job is never blocked for longer on one page, and for as long by the end of the simulation. */
  lemma HeadBlockedTicks(jobs: seq<Job>, procs: nat, times: seq<nat>, k: nat, p: nat, n: nat)
    requires Generated(jobs) && HaltTimes(jobs, times) && procs > 0 && k < |jobs| && p < MAXPROCPAGES
    requires ValidProgram(jobs[k].program)
    ensures BlockedTicks(Load(jobs, procs), k, p, n) <= MostBlocked(jobs, times, k, p)
    ensures Completed(jobs, Iterate(BasicNext(), Load(jobs, procs), n)) ==>
      BlockedTicks(Load(jobs, procs), k, p, n) == MostBlocked(jobs, times, k, p)
  {
    BlockedSoFar(jobs, procs, times, k, p, n);
    if Completed(jobs, Iterate(BasicNext(), Load(jobs, procs), n)) {
      CompletedLater(jobs, procs, Iterate(BasicNext(), Load(jobs, procs), n));
      EndWait(jobs, times, Load(jobs, procs), k, p, n);
    }
  }

  lemma SameComputes(jobs: seq<Job>, s: State, t: State)
    requires Completed(jobs, s) && Completed(jobs, t)
    ensures Computes(s.jobs) == Computes(t.jobs)
  {
    ScoresAgree(jobs, s, t);
  }

  /** Both pagers bring every generated queue to its end, and to the same computation. */
  lemma PagersAgree(jobs: seq<Job>, procs: nat, procs': nat) returns (m: nat, n: nat)
    requires Generated(jobs) && procs > 0 && procs' > 0
    ensures var s, t := Iterate(BasicNext(), Load(jobs, procs), m), Iterate(ClockNext(), (Load(jobs, procs'), 1), n).0;
      Completed(jobs, s) && Completed(jobs, t) && Computes(s.jobs) == Computes(t.jobs)
  {
    var times := QueueHalts(jobs);
    var s, t;
    m, s := BasicSide(jobs, procs, times);
    n, t := ClockSide(jobs, procs', times);
    SameComputes(jobs, s, t);
  }

  lemma BasicSide(jobs: seq<Job>, procs: nat, times: seq<nat>) returns (n: nat, s: State)
    requires Generated(jobs) && HaltTimes(jobs, times) && procs > 0
    ensures s == Iterate(BasicNext(), Load(jobs, procs), n) && Completed(jobs, s)
  {
    n := BasicTerminates(jobs, procs, times);
    s := Iterate(BasicNext(), Load(jobs, procs), n);
  }

  lemma ClockSide(jobs: seq<Job>, procs: nat, times: seq<nat>) returns (n: nat, s: State)
    requires Generated(jobs) && HaltTimes(jobs, times) && procs > 0
    ensures s == Iterate(ClockNext(), (Load(jobs, procs), 1), n).0 && Completed(jobs, s)
  {
    n := ClockTerminates(jobs, procs, times);
    s := Iterate(ClockNext(), (Load(jobs, procs), 1), n).0;
  }

  // ---------- The final scores ----------

  lemma FinalCompute(jobs: seq<Job>, s: State, k: nat, time: nat)
    requires Completed(jobs, s) && k < |jobs| && HaltsIn(jobs[k].program, jobs[k].control, time)
    ensures s.jobs[k].compute == time + 1
  {
    AllDoneMeansFinished(s);
    assert Follows(jobs[k], s.jobs[k]);
    FinishedCompute(jobs[k], s.jobs[k], time);
  }

  /** The compute score of a completed run is the sum of its jobs' halting times and exit ticks. */
  lemma CompletedScore(jobs: seq<Job>, times: seq<nat>, s: State)
    requires Completed(jobs, s) && HaltTimes(jobs, times)
    ensures Compute(s) == FinalScore(times)
  {
    forall k | 0 <= k < |jobs|
      ensures Computes(s.jobs)[k] == FinalComputes(times)[k]
    {
      FinalCompute(jobs, s, k, times[k]);
    }
    assert Computes(s.jobs) == FinalComputes(times);
  }

  // What a job's draws make it compute, program by program, whatever the pager and the number of slots.

  /** A loaded job of a completed run. */
  ghost predicate Finished(jobs: seq<Job>, s: State, k: nat, p: Program) {
    && Completed(jobs, s) && k < |jobs| && FreshJob(jobs[k])
    && jobs[k].program == p && Loaded(p, jobs[k].control.ctxs)
  }

  lemma FinishedAt(jobs: seq<Job>, s: State, k: nat, p: Program, time: nat)
    requires Finished(jobs, s, k, p) && HaltsIn(p, Start(jobs[k].control.ctxs), time)
    ensures s.jobs[k].compute == time + 1
  {
    assert jobs[k].control == Start(jobs[k].control.ctxs);
    FinalCompute(jobs, s, k, time);
  }

  /** 633 ticks for each round whose IF is taken, 1403 for each other, and the exit. */
  lemma ExactComputeBranchy(jobs: seq<Job>, s: State, k: nat)
    requires Finished(jobs, s, k, LOOP_WITH_INNER_BRANCH)
    ensures var cs := jobs[k].control.ctxs;
      cs[2].brings[0] >= 0 && s.jobs[k].compute == BranchyTime(cs[0], cs[2].brings[0] + 1) + 1
  {
    var cs := jobs[k].control.ctxs;
    LoopWithInnerBranchTime(cs);
    FinishedAt(jobs, s, k, LOOP_WITH_INNER_BRANCH, BranchyTime(cs[0], cs[2].brings[0] + 1));
  }

  lemma ExactComputeOneLoop(jobs: seq<Job>, s: State, k: nat)
    requires Finished(jobs, s, k, ONE_LOOP)
    ensures s.jobs[k].compute == 1130 * (jobs[k].control.ctxs[0].brings[0] + 1) + 1
  {
    var cs := jobs[k].control.ctxs;
    OneLoopTime(cs);
    FinishedAt(jobs, s, k, ONE_LOOP, 1130 * (cs[0].brings[0] + 1));
  }

  lemma ExactComputeNested(jobs: seq<Job>, s: State, k: nat)
    requires Finished(jobs, s, k, DOUBLY_NESTED_LOOP)
    ensures var cs := jobs[k].control.ctxs; var rounds := cs[1].brings[0] + 1;
      rounds >= 0 && s.jobs[k].compute == 1684 * rounds + 517 * InnerTakes(cs[0].brings, rounds) + 1
  {
    var cs := jobs[k].control.ctxs;
    DoublyNestedLoopTime(cs);
    FinishedAt(jobs, s, k, DOUBLY_NESTED_LOOP,
               1684 * (cs[1].brings[0] + 1) + 517 * InnerTakes(cs[0].brings, cs[1].brings[0] + 1));
  }

  lemma ExactComputeLinear(jobs: seq<Job>, s: State, k: nat)
    requires Finished(jobs, s, k, LINEAR)
    ensures s.jobs[k].compute == 1913
  {
    LinearTime(jobs[k].control.ctxs);
    FinishedAt(jobs, s, k, LINEAR, 1912);
  }

  /** The last program's loop is driven by its coin tosses. */
  lemma ExactComputeBackward(jobs: seq<Job>, s: State, k: nat, draws: seq<bool>, rounds: nat)
    requires Finished(jobs, s, k, BACKWARD_BRANCH)
    requires var cs := jobs[k].control.ctxs;
      CodesDraws(cs[0], draws) && rounds <= Sum(cs[0].brings) && TurnsAt(draws, cs[3].brings[0] + 1, rounds)
    ensures s.jobs[k].compute == BackwardTime(draws, rounds) + 1
  {
    BackwardBranchTime(jobs[k].control.ctxs, draws, rounds);
    FinishedAt(jobs, s, k, BACKWARD_BRANCH, BackwardTime(draws, rounds));
  }
}
