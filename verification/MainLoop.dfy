/** The main loop with either pager: it ends, and with the score that the draws determine. */
module MainLoop {
  import opened Machine
  import opened Programs
  import opened ControlFlow
  import opened Sums
  import opened Simulation
  import opened Invariants
  import opened Transparency
  import opened Iteration
  import opened BasicPaging
  import opened ClockHand
  import opened ClockPaging
  import opened Termination
  import opened PagerAlarms
  import opened BranchContexts
  import opened Simulators
  import opened Pagers

  /** The queue that the draws generate. */
  ghost predicate GeneratedBy(jobs: seq<Job>, shuffle: seq<nat>, draws: seq<seq<Draws>>) {
    && |jobs| == |draws| == QUEUESIZE && |shuffle| == PASSES * QUEUESIZE
    && forall k | 0 <= k < QUEUESIZE :: IsLoaded(jobs[k], Shuffled(shuffle, PASSES)[k], draws[k])
  }

  /** There is only one. */
  lemma DrawsDetermineQueue(jobs: seq<Job>, jobs': seq<Job>, shuffle: seq<nat>, draws: seq<seq<Draws>>)
    requires GeneratedBy(jobs, shuffle, draws) && GeneratedBy(jobs', shuffle, draws)
    ensures jobs == jobs'
  {
    forall k | 0 <= k < QUEUESIZE
      ensures jobs[k] == jobs'[k]
    {
      DrawsDetermineJob(jobs[k], jobs'[k], Shuffled(shuffle, PASSES)[k], draws[k]);
    }
  }

  /** The compute score that the draws determine: every job's pure running time and its exit tick. */
  ghost predicate IsScore(compute: int, shuffle: seq<nat>, draws: seq<seq<Draws>>) {
    exists jobs, times :: GeneratedBy(jobs, shuffle, draws) && HaltTimes(jobs, times) && compute == FinalScore(times)
  }

  lemma ScoreIsUnique(a: int, b: int, shuffle: seq<nat>, draws: seq<seq<Draws>>)
    requires IsScore(a, shuffle, draws) && IsScore(b, shuffle, draws)
    ensures a == b
  {
    var jobs, times :| GeneratedBy(jobs, shuffle, draws) && HaltTimes(jobs, times) && a == FinalScore(times);
    var jobs', times' :| GeneratedBy(jobs', shuffle, draws) && HaltTimes(jobs', times') && b == FinalScore(times');
    DrawsDetermineQueue(jobs, jobs', shuffle, draws);
    TimesAreUnique(jobs, times, times');
  }

  lemma TimesAreUnique(jobs: seq<Job>, times: seq<nat>, times': seq<nat>)
    requires HaltTimes(jobs, times) && HaltTimes(jobs, times')
    ensures times == times'
  {
    forall k | 0 <= k < |jobs|
      ensures times[k] == times'[k]
    {
      HaltsAtOnce(jobs[k], times[k], times'[k]);
    }
  }

  lemma HaltsAtOnce(j: Job, time: nat, time': nat)
    requires HaltsAt(j, time) && HaltsAt(j, time')
    ensures time == time'
  {
    var b :| Reach(j.program, j.control, time, b) && AtExit(j.program, b.pc);
    HaltsOnce(j.program, j.control, time', time, b);
  }

  /** The scores of a run of the queue that the draws generate, with these calls. */
  ghost predicate IsRunScore(compute: int, block: int, procs: nat, shuffle: seq<nat>, draws: seq<seq<Draws>>,
                             calls: seq<seq<Op>>) {
    exists jobs :: GeneratedBy(jobs, shuffle, draws) && HasScores(compute, block, Load(jobs, procs), calls)
  }

  ghost predicate HasScores(compute: int, block: int, s0: State, calls: seq<seq<Op>>) {
    && WellFormed(s0)
    && var last := Run(s0, calls, |calls|);
       && compute == Compute(last) && block == Sum(Blocks(last.jobs))
       && compute + block == Sum(OccupiedCounts(s0, calls, |calls|))
  }

  /** Whatever the pager and the number of slots: a completed simulation has the score that the draws determine. */
  lemma DrawsDetermineScore(jobs: seq<Job>, last: State, shuffle: seq<nat>, draws: seq<seq<Draws>>)
    requires GeneratedBy(jobs, shuffle, draws) && Completed(jobs, last)
    ensures IsScore(Compute(last), shuffle, draws)
  {
    AllGenerated(jobs, Shuffled(shuffle, PASSES), draws);
    var times := QueueHalts(jobs);
    CompletedScore(jobs, times, last);
  }

  /** A simulator whose slots hold the first jobs of a generated queue. */
  method Start(procs: nat, shuffle: seq<nat>, draws: seq<seq<Draws>>)
    returns (sim: Simulator, ghost jobs: seq<Job>, ghost times: seq<nat>)
    requires 0 < procs <= MAXPROCESSES && |shuffle| == PASSES * QUEUESIZE && Plentiful(draws)
    ensures sim.Structure() && sim.Valid() && fresh(sim.repr)
    ensures GeneratedBy(jobs, shuffle, draws) && Generated(jobs) && HaltTimes(jobs, times)
    ensures sim.procs == procs && sim.View() == Load(jobs, procs)
  {
    sim := new Simulator(procs);
    sim.AllInit(shuffle, draws);
    jobs := sim.Jobs();
    times := QueueHalts(jobs);
  }

  // ---------- Any pager ----------

  /** The calls of an invocation of some pager. */
  method MakeCalls(sim: Simulator, calls: seq<Op>)
    requires sim.Structure() && sim.Valid() && IsCalls(calls)
    modifies sim.repr
    ensures sim.Valid() && sim.View() == DoAll(old(sim.View()), calls)
  {
    ghost var s := sim.View();
    for c := 0 to |calls|
      invariant sim.Valid() && sim.View() == DoTo(s, calls, c)
    {
      match calls[c] {
        case In(process, page) =>
          var ok := sim.PageIn(process, page);
        case Out(process, page) =>
          var ok := sim.PageOut(process, page);
      }
    }
  }

  /** A tick of the main loop. */
  method AnyTick(sim: Simulator, calls: seq<Op>) returns (blocked: bool)
    requires sim.Structure() && sim.Valid() && IsCalls(calls)
    modifies sim.repr
    ensures sim.Valid() && sim.View() == TickWith(old(sim.View()), calls)
    ensures blocked == Deadlock.AllBlocked(sim.View())
  {
    sim.AllStep();
    sim.AllAge();
    MakeCalls(sim, calls);
    blocked := sim.AllBlocked();
  }

  /** The run from `s0` is at `s` after `t` ticks, and was not done before. */
  ghost predicate AnyIsAt(s0: State, calls: seq<seq<Op>>, t: nat, s: State) {
    && WellFormed(s0) && t <= |calls| && Run(s0, calls, t) == s
    && forall n | 0 <= n < t :: !AllDone(Run(s0, calls, n))
  }

  lemma AnyNext(s0: State, calls: seq<seq<Op>>, t: nat, s: State)
    requires AnyIsAt(s0, calls, t, s) && t < |calls| && !AllDone(s)
    ensures AnyIsAt(s0, calls, t + 1, TickWith(s, calls[t]))
  {
  }

  /** A round of the loop. */
  method AnyRound(sim: Simulator, calls: seq<seq<Op>>, ghost s0: State, t: nat) returns (done: bool)
    requires sim.Structure() && sim.Valid() && PagerCalls(calls)
    requires AnyIsAt(s0, calls, t, sim.View()) && t < |calls| && !AllDone(sim.View())
    modifies sim.repr
    ensures sim.Valid() && AnyIsAt(s0, calls, t + 1, sim.View()) && done == AllDone(sim.View())
  {
    AnyNext(s0, calls, t, sim.View());
    var blocked := AnyTick(sim, calls[t]);
    done := sim.AllDone();
  }

  lemma AnyStart(s0: State, calls: seq<seq<Op>>)
    requires WellFormed(s0)
    ensures AnyIsAt(s0, calls, 0, s0)
  {
  }

  /** The main loop, until all is done or the lists of calls are used up. */
  method AnyLoop(sim: Simulator, calls: seq<seq<Op>>) returns (t: nat)
    requires sim.Structure() && sim.Valid() && PagerCalls(calls)
    modifies sim.repr
    ensures sim.Valid() && AnyIsAt(old(sim.View()), calls, t, sim.View())
    ensures AllDone(sim.View()) || t == |calls|
  {
    ghost var s := sim.View();
    AnyStart(s, calls);
    t := 0;
    var done := sim.AllDone();
    while !done && t < |calls|
      invariant sim.Valid() && t <= |calls| && AnyIsAt(s, calls, t, sim.View())
      invariant done == AllDone(sim.View())
    {
      done := AnyRound(sim, calls, s, t);
      t := t + 1;
    }
  }

  /**
   Whatever the pager calls: the loop stops at the first state in which all is done, and more ticks
   would change nothing; the invariant holds, every job is where its pure run is, and the two scores
   account for every occupied slot of every tick.
   */
  method SimulateAny(procs: nat, shuffle: seq<nat>, draws: seq<seq<Draws>>, calls: seq<seq<Op>>)
    returns (compute: int, block: int, ghost jobs: seq<Job>, ghost last: State, ghost t: nat)
    requires 0 < procs <= MAXPROCESSES && |shuffle| == PASSES * QUEUESIZE && Plentiful(draws) && PagerCalls(calls)
    ensures GeneratedBy(jobs, shuffle, draws) && Inv(last) && Transparent(jobs, last)
    ensures AnyIsAt(Load(jobs, procs), calls, t, last) && (AllDone(last) || t == |calls|)
    ensures forall n | t <= n <= |calls| :: Run(Load(jobs, procs), calls, n) == last
    ensures HasScores(compute, block, Load(jobs, procs), calls)
    ensures IsRunScore(compute, block, procs, shuffle, draws, calls)
  {
    ghost var times;
    var sim;
    sim, jobs, times := Start(procs, shuffle, draws);
    var ticks := AnyLoop(sim, calls);
    t := ticks;
    last := sim.View();
    compute, block := sim.AllScore();
    AnySimulated(compute, block, procs, shuffle, draws, calls, jobs, last, t);
  }

  /** The end does not depend on how many lists of calls are left. */
  lemma AnyEnd(s0: State, calls: seq<seq<Op>>, t: nat, last: State)
    requires Inv(s0) && |s0.slots| > 0 && t <= |calls|
    requires Run(s0, calls, t) == last && (AllDone(last) || t == |calls|)
    ensures forall n | t <= n <= |calls| :: Run(s0, calls, n) == last
  {
    forall n | t <= n <= |calls|
      ensures Run(s0, calls, n) == last
    {
      AnyEndAt(s0, calls, t, n, last);
    }
  }

  lemma AnyEndAt(s0: State, calls: seq<seq<Op>>, t: nat, n: nat, last: State)
    requires Inv(s0) && |s0.slots| > 0 && t <= n <= |calls|
    requires Run(s0, calls, t) == last && (AllDone(last) || t == n)
    ensures Run(s0, calls, n) == last
  {
    if t < n {
      RunEnds(s0, calls, t, n);
    }
  }

  lemma AnyResult(jobs: seq<Job>, procs: nat, calls: seq<seq<Op>>)
    requires Generated(jobs) && PagerCalls(calls)
    ensures WellFormed(Load(jobs, procs))
    ensures var last := Run(Load(jobs, procs), calls, |calls|);
      && Inv(last) && Transparent(jobs, last)
      && Compute(last) + Sum(Blocks(last.jobs)) == Sum(OccupiedCounts(Load(jobs, procs), calls, |calls|))
  {
    FreshQueue(jobs);
    LoadInv(jobs, procs);
    RunKeepsInv(Load(jobs, procs), calls, |calls|);
    PagingTransparency(jobs, procs, calls, |calls|);
    ScoresAddUp(jobs, procs, calls, |calls|);
  }

  lemma AnyEnded(jobs: seq<Job>, procs: nat, calls: seq<seq<Op>>, t: nat, last: State)
    requires Generated(jobs) && procs > 0 && WellFormed(Load(jobs, procs)) && t <= |calls|
    requires Run(Load(jobs, procs), calls, t) == last && (AllDone(last) || t == |calls|)
    ensures forall n | t <= n <= |calls| :: Run(Load(jobs, procs), calls, n) == last
  {
    FreshQueue(jobs);
    LoadInv(jobs, procs);
    AnyEnd(Load(jobs, procs), calls, t, last);
  }

  lemma AnyScore(compute: int, block: int, s0: State, calls: seq<seq<Op>>, last: State)
    requires WellFormed(s0) && Run(s0, calls, |calls|) == last
    requires compute == Compute(last) && block == Sum(Blocks(last.jobs))
    requires compute + block == Sum(OccupiedCounts(s0, calls, |calls|))
    ensures HasScores(compute, block, s0, calls)
  {
  }

  lemma AnySimulated(compute: int, block: int, procs: nat, shuffle: seq<nat>, draws: seq<seq<Draws>>,
                     calls: seq<seq<Op>>, jobs: seq<Job>, last: State, t: nat)
    requires GeneratedBy(jobs, shuffle, draws) && Generated(jobs) && PagerCalls(calls) && procs > 0
    requires WellFormed(Load(jobs, procs)) && t <= |calls|
    requires Run(Load(jobs, procs), calls, t) == last && (AllDone(last) || t == |calls|)
    requires compute == Compute(last) && block == Sum(Blocks(last.jobs))
    ensures Inv(last) && Transparent(jobs, last)
    ensures forall n | t <= n <= |calls| :: Run(Load(jobs, procs), calls, n) == last
    ensures HasScores(compute, block, Load(jobs, procs), calls)
    ensures IsRunScore(compute, block, procs, shuffle, draws, calls)
  {
    AnyEnded(jobs, procs, calls, t, last);
    AnyResult(jobs, procs, calls);
    AnyScore(compute, block, Load(jobs, procs), calls, last);
  }

  // ---------- The pager of pager-lru.c ----------

  /** A tick of the main loop, up to the deadlock detector. */
  method LruStep(sim: Simulator, pager: LruPager)
    requires sim.Structure() && sim.Valid() && pager.Valid() && Inv(sim.View())
    requires pager !in sim.repr && pager.timestamps !in sim.repr
    modifies sim.repr, pager, pager.timestamps
    ensures sim.Valid() && pager.Valid() && Inv(sim.View())
    ensures sim.View() == ClockTick(old(sim.View()), old(pager.tick)) && pager.tick == old(pager.tick) + 1
  {
    MachineKeepsInv(sim.View());
    sim.AllStep();
    sim.AllAge();
    ClockKeepsInv(sim.View(), pager.tick);
    CallYou(sim, pager);
  }

  /** A tick of the main loop; the alarm is on exactly when all current pages are out and no frame is available. */
  method LruTick(sim: Simulator, pager: LruPager) returns (blocked: bool)
    requires sim.Structure() && sim.Valid() && pager.Valid() && Inv(sim.View())
    requires pager !in sim.repr && pager.timestamps !in sim.repr
    modifies sim.repr, pager, pager.timestamps
    ensures sim.Valid() && pager.Valid() && Inv(sim.View())
    ensures sim.View() == ClockTick(old(sim.View()), old(pager.tick)) && pager.tick == old(pager.tick) + 1
    ensures blocked == (Deadlock.AllBlocked(Tick(old(sim.View()))) && Tick(old(sim.View())).avail == 0)
  {
    LruAlarm(sim.View(), pager.tick);
    LruStep(sim, pager);
    blocked := sim.AllBlocked();
  }

  /** `callyou`. */
  method CallYou(sim: Simulator, pager: LruPager)
    requires sim.Structure() && sim.Valid() && pager.Valid() && Inv(sim.View())
    requires pager !in sim.repr && pager.timestamps !in sim.repr
    modifies sim.repr, pager, pager.timestamps
    ensures sim.Valid() && pager.Valid()
    ensures sim.View() == Clock(old(sim.View()), old(pager.tick)) && pager.tick == old(pager.tick) + 1
  {
    var entries := sim.Snapshot();
    pager.PageIt(sim, entries);
  }

  lemma MachineKeepsInv(s: State)
    requires Inv(s)
    ensures Inv(AllAge(AllStep(s)))
  {
    TickKeepsInv(s, []);
  }

  lemma NextClockTick(c0: (State, nat), t: nat, c: (State, nat)) returns (d: (State, nat))
    requires c == Iterate(ClockNext(), c0, t) && WellFormed(c.0)
    ensures d == Iterate(ClockNext(), c0, t + 1)
    ensures d.0 == ClockTick(c.0, c.1) && d.1 == c.1 + 1
  {
    IterateAdd(ClockNext(), c0, t, 1);
    d := ClockNext()(c);
  }

  lemma ClockNotYet(c0: (State, nat), n: nat, t: nat, c: (State, nat))
    requires ClockDone()(Iterate(ClockNext(), c0, n)) && c == Iterate(ClockNext(), c0, t) && t <= n
    requires WellFormed(c.0) && !AllDone(c.0)
    ensures t < n
  {
  }

  lemma ClockRunKeepsInv(c: (State, nat), t: nat)
    requires Inv(c.0)
    ensures Inv(Iterate(ClockNext(), c, t).0)
  {
    ComputeStays(c.0, c.1, t);
    assert c == (c.0, c.1);
  }

  /** Where the run from `c` is after `t` ticks. */
  ghost predicate ClockIsAt(c: (State, nat), t: nat, s: State, tick: nat) {
    Iterate(ClockNext(), c, t).0 == s && Iterate(ClockNext(), c, t).1 == tick
  }

  /** The same, and the run was not done before. */
  ghost predicate ClockRuns(c: (State, nat), t: nat, s: State, tick: nat) {
    ClockIsAt(c, t, s, tick) && forall m | 0 <= m < t :: !ClockDone()(Iterate(ClockNext(), c, m))
  }

  lemma ClockRunsOn(c: (State, nat), t: nat, s: State, tick: nat, s': State, tick': nat)
    requires ClockRuns(c, t, s, tick) && WellFormed(s) && !AllDone(s) && ClockIsAt(c, t + 1, s', tick')
    ensures ClockRuns(c, t + 1, s', tick')
  {
  }

  /** A round of the loop, before the run is done after `n` ticks. */
  method LruRound(sim: Simulator, pager: LruPager, ghost c: (State, nat), ghost n: nat, ghost t: nat)
    returns (done: bool)
    requires sim.Structure() && sim.Valid() && pager.Valid() && !AllDone(sim.View())
    requires pager !in sim.repr && pager.timestamps !in sim.repr
    requires Inv(c.0) && ClockDone()(Iterate(ClockNext(), c, n)) && t <= n && ClockRuns(c, t, sim.View(), pager.tick)
    modifies sim.repr, pager, pager.timestamps
    ensures sim.Valid() && pager.Valid() && done == AllDone(sim.View())
    ensures t < n && ClockRuns(c, t + 1, sim.View(), pager.tick)
  {
    ghost var now := Iterate(ClockNext(), c, t);
    ghost var s, tick := sim.View(), pager.tick;
    ClockNotYet(c, n, t, now);
    ClockRunKeepsInv(c, t);
    ghost var next := NextClockTick(c, t, now);
    var blocked := LruTick(sim, pager);
    ClockRunsOn(c, t, s, tick, sim.View(), pager.tick);
    done := sim.AllDone();
  }

  /** The main loop, up to the tick that `ClockTerminates` names. */
  method LruLoop(sim: Simulator, pager: LruPager, ghost c: (State, nat), ghost n: nat) returns (ghost t: nat)
    requires sim.Structure() && sim.Valid() && pager.Valid()
    requires pager !in sim.repr && pager.timestamps !in sim.repr
    requires Inv(c.0) && ClockDone()(Iterate(ClockNext(), c, n)) && ClockRuns(c, 0, sim.View(), pager.tick)
    modifies sim.repr, pager, pager.timestamps
    ensures sim.Valid() && AllDone(sim.View())
    ensures t <= n && ClockRuns(c, t, sim.View(), pager.tick)
  {
    t := 0;
    var done := sim.AllDone();
    while !done
      invariant sim.Valid() && pager.Valid() && done == AllDone(sim.View())
      invariant t <= n && ClockRuns(c, t, sim.View(), pager.tick)
      decreases n - t
    {
      done := LruRound(sim, pager, c, n, t);
      t := t + 1;
    }
  }

  lemma LruEnds(jobs: seq<Job>, procs: nat, times: seq<nat>) returns (n: nat)
    requires Generated(jobs) && HaltTimes(jobs, times) && procs > 0
    ensures Inv(Load(jobs, procs)) && ClockDone()(Iterate(ClockNext(), (Load(jobs, procs), 1), n))
  {
    LoadIsReady(jobs, procs, times);
    n := ClockTerminates(jobs, procs, times);
  }

  lemma ClockResult(jobs: seq<Job>, procs: nat, times: seq<nat>, t: nat, s: State, tick: nat)
    requires Generated(jobs) && HaltTimes(jobs, times) && procs > 0
    requires ClockIsAt((Load(jobs, procs), 1), t, s, tick) && WellFormed(s) && AllDone(s)
    ensures Completed(jobs, s)
  {
    var c := (Load(jobs, procs), 1);
    LoadIsReady(jobs, procs, times);
    StrideKeepsReady(jobs, times, c, t);
    SlotsAreKept(procs, c, t);
    ClockCompletes(jobs, procs, times, Iterate(ClockNext(), c, t));
  }

  /** From the loaded slots to the end. */
  method LruMain(sim: Simulator, pager: LruPager, ghost jobs: seq<Job>, ghost times: seq<nat>)
    returns (ghost ticks: nat)
    requires sim.Structure() && sim.Valid() && pager.Valid() && pager.tick == 1
    requires pager !in sim.repr && pager.timestamps !in sim.repr
    requires Generated(jobs) && HaltTimes(jobs, times) && sim.View() == Load(jobs, sim.procs)
    modifies sim.repr, pager, pager.timestamps
    ensures sim.Valid() && Completed(jobs, sim.View())
    ensures LruEndsAt(jobs, sim.procs, sim.View(), ticks)
  {
    ghost var n := LruEnds(jobs, sim.procs, times);
    ghost var c := (Load(jobs, sim.procs), 1);
    ticks := LruLoop(sim, pager, c, n);
    ClockResult(jobs, sim.procs, times, ticks, sim.View(), pager.tick);
  }

  /** The run from the loaded slots is done after `ticks` ticks, in state `last`, and not before. */
  ghost predicate LruEndsAt(jobs: seq<Job>, procs: nat, last: State, ticks: nat) {
    && Iterate(ClockNext(), (Load(jobs, procs), 1), ticks).0 == last
    && forall m | 0 <= m < ticks :: !ClockDone()(Iterate(ClockNext(), (Load(jobs, procs), 1), m))
  }

  /** The whole simulation ends, for any draws and number of slots. */
  method SimulateLru(procs: nat, shuffle: seq<nat>, draws: seq<seq<Draws>>)
    returns (compute: int, block: int, ghost jobs: seq<Job>, ghost last: State, ghost ticks: nat)
    requires 0 < procs <= MAXPROCESSES && |shuffle| == PASSES * QUEUESIZE && Plentiful(draws)
    ensures GeneratedBy(jobs, shuffle, draws) && Completed(jobs, last) && LruEndsAt(jobs, procs, last, ticks)
    ensures IsScore(compute, shuffle, draws)
    ensures compute == Compute(last) && block == Sum(Blocks(last.jobs))
  {
    ghost var times;
    var sim;
    sim, jobs, times := Start(procs, shuffle, draws);
    var pager := new LruPager();
    ticks := LruMain(sim, pager, jobs, times);
    last := sim.View();
    CompletedScore(jobs, times, last);
    compute, block := sim.AllScore();
  }

  // ---------- The basic pager ----------

  method BasicStep(sim: Simulator) returns (blocked: bool)
    requires sim.Structure() && sim.Valid()
    modifies sim.repr
    ensures sim.Valid() && sim.View() == BasicTick(old(sim.View()))
    ensures blocked == Deadlock.AllBlocked(sim.View())
  {
    sim.AllStep();
    sim.AllAge();
    var entries := sim.Snapshot();
    BasicPageIt(sim, entries);
    blocked := sim.AllBlocked();
  }

  /** A tick of the main loop; the alarm is never raised. */
  method BasicLoopTick(sim: Simulator) returns (blocked: bool)
    requires sim.Structure() && sim.Valid() && BasicInv(sim.View())
    modifies sim.repr
    ensures sim.Valid() && sim.View() == BasicTick(old(sim.View())) && BasicInv(sim.View())
    ensures !blocked
  {
    BasicTickKeepsInv(sim.View());
    BasicRaisesNoAlarm(sim.View());
    blocked := BasicStep(sim);
  }

  /** The run from `s0` is at `s` after `t` ticks. */
  ghost predicate BasicIsAt(s0: State, t: nat, s: State) {
    s == Iterate(BasicNext(), s0, t) && BasicInv(s)
  }

  lemma NextBasicTick(s0: State, t: nat, s: State)
    requires s == Iterate(BasicNext(), s0, t) && WellFormed(s)
    ensures BasicTick(s) == Iterate(BasicNext(), s0, t + 1)
  {
    IterateAdd(BasicNext(), s0, t, 1);
  }

  lemma BasicNotYet(s0: State, n: nat, t: nat, s: State)
    requires Done()(Iterate(BasicNext(), s0, n)) && s == Iterate(BasicNext(), s0, t) && t <= n
    requires WellFormed(s) && !AllDone(s)
    ensures t < n
  {
  }

  /** A round of the loop, before the run is done after `n` ticks. */
  method BasicRound(sim: Simulator, ghost s0: State, ghost n: nat, ghost t: nat) returns (done: bool)
    requires sim.Structure() && sim.Valid() && !AllDone(sim.View())
    requires Done()(Iterate(BasicNext(), s0, n)) && t <= n && BasicIsAt(s0, t, sim.View())
    modifies sim.repr
    ensures sim.Valid() && done == AllDone(sim.View())
    ensures t < n && BasicIsAt(s0, t + 1, sim.View())
  {
    BasicNotYet(s0, n, t, sim.View());
    NextBasicTick(s0, t, sim.View());
    var blocked := BasicLoopTick(sim);
    done := sim.AllDone();
  }

  method BasicLoop(sim: Simulator, ghost n: nat) returns (ghost t: nat)
    requires sim.Structure() && sim.Valid() && BasicIsAt(sim.View(), 0, sim.View())
    requires Done()(Iterate(BasicNext(), sim.View(), n))
    modifies sim.repr
    ensures sim.Valid() && AllDone(sim.View())
    ensures t <= n && BasicIsAt(old(sim.View()), t, sim.View())
  {
    ghost var s := sim.View();
    t := 0;
    var done := sim.AllDone();
    while !done
      invariant sim.Valid() && done == AllDone(sim.View())
      invariant t <= n && BasicIsAt(s, t, sim.View())
      decreases n - t
    {
      done := BasicRound(sim, s, n, t);
      t := t + 1;
    }
  }

  lemma BasicResult(jobs: seq<Job>, procs: nat, times: seq<nat>, t: nat, s: State)
    requires Generated(jobs) && HaltTimes(jobs, times) && procs > 0
    requires s == Iterate(BasicNext(), Load(jobs, procs), t) && WellFormed(s) && AllDone(s)
    ensures Completed(jobs, s)
  {
    LoadIsHeadOnly(jobs, procs, times);
    BasicRunKeepsReady(jobs, times, Load(jobs, procs), t);
    IterateKeeps(BasicNext(), SlotsStay(procs), Load(jobs, procs), t);
  }

  lemma BasicRunKeepsReady(jobs: seq<Job>, times: seq<nat>, s: State, t: nat)
    requires BasicReady(jobs, times, s)
    ensures BasicReady(jobs, times, Iterate(BasicNext(), s, t))
  {
    forall u | Ready(jobs, times)(u)
      ensures Ready(jobs, times)(BasicNext()(u))
    {
      TickKeepsReady(jobs, times, u);
    }
    IterateKeeps(BasicNext(), Ready(jobs, times), s, t);
    assert Ready(jobs, times)(Iterate(BasicNext(), s, t));
  }

  /** The loop stops at the first tick after which all is done. */
  lemma BasicLasts(s0: State, n: nat, t: nat, s: State)
    requires forall m | 0 <= m < n :: !Done()(Iterate(BasicNext(), s0, m))
    requires t <= n && s == Iterate(BasicNext(), s0, t) && WellFormed(s) && AllDone(s)
    ensures t == n
  {
  }

  /** From the loaded slots to the end. */
  method BasicMain(sim: Simulator, ghost jobs: seq<Job>, ghost times: seq<nat>) returns (ghost ticks: nat)
    requires sim.Structure() && sim.Valid()
    requires Generated(jobs) && HaltTimes(jobs, times) && sim.View() == Load(jobs, sim.procs)
    modifies sim.repr
    ensures sim.Valid() && Completed(jobs, sim.View()) && ticks == BasicLength(jobs, times)
    ensures sim.View() == Iterate(BasicNext(), Load(jobs, sim.procs), ticks)
  {
    LoadIsHeadOnly(jobs, sim.procs, times);
    ghost var n := BasicTerminates(jobs, sim.procs, times);
    ticks := BasicLoop(sim, n);
    BasicResult(jobs, sim.procs, times, ticks, sim.View());
    BasicLasts(Load(jobs, sim.procs), n, ticks, sim.View());
  }

  /** The whole simulation ends, for any draws and number of slots, after exactly as many ticks as the draws say. */
  method SimulateBasic(procs: nat, shuffle: seq<nat>, draws: seq<seq<Draws>>)
    returns (compute: int, block: int, ghost jobs: seq<Job>, ghost times: seq<nat>, ghost last: State, ghost ticks: nat)
    requires 0 < procs <= MAXPROCESSES && |shuffle| == PASSES * QUEUESIZE && Plentiful(draws)
    ensures GeneratedBy(jobs, shuffle, draws) && Completed(jobs, last)
    ensures IsScore(compute, shuffle, draws)
    ensures compute == Compute(last) && block == Sum(Blocks(last.jobs))
    ensures HaltTimes(jobs, times) && ticks == BasicLength(jobs, times)
    ensures last == Iterate(BasicNext(), Load(jobs, procs), ticks)
  {
    var sim;
    sim, jobs, times := Start(procs, shuffle, draws);
    ticks := BasicMain(sim, jobs, times);
    last := sim.View();
    CompletedScore(jobs, times, last);
    compute, block := sim.AllScore();
  }
}
