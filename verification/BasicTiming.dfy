/**
 How long a simulation with the basic pager takes, to the tick: the head computes, or waits PAGEWAIT
 ticks for each page that its pure run visits, once; nothing else happens.
 */
module BasicTiming {
  import opened Machine
  import opened Sums
  import opened Programs
  import opened ControlFlow
  import opened Simulation
  import opened Invariants
  import opened Effects
  import opened Transparency
  import opened Iteration
  import opened BasicPaging

  // ---------- What is left of one job ----------

  /** The pure run is on page `p` before one of its first `m + 1` steps. */
  ghost predicate Visits(j0: Job, m: nat, p: int)
    requires ValidProgram(j0.program)
  {
    exists i: nat, c :: i <= m && Reach(j0.program, j0.control, i, c) && c.pc / PAGESIZE == p
  }

  /** Ticks until the page is in, counted from when it is called in. */
  function SwapLeft(v: int): nat {
    if v > 0 then v else if v == 0 then 0 else PAGEWAIT
  }

  /** Ticks for which the job, halting after `time` steps, has still to wait for page `p` at the head. */
  ghost function PageLeft(j0: Job, j: Job, time: nat, p: nat): nat
    requires ValidProgram(j0.program) && p < |j.pages|
  {
    if j.active && Visits(j0, time, p) then SwapLeft(j.pages[p]) else 0
  }

  ghost function PagesLeft(j0: Job, j: Job, time: nat): (r: seq<int>)
    requires ValidProgram(j0.program)
    ensures |r| == |j.pages| && forall p | 0 <= p < |j.pages| :: r[p] == PageLeft(j0, j, time, p)
  {
    seq(|j.pages|, p requires 0 <= p < |j.pages| => PageLeft(j0, j, time, p))
  }

  /** Ticks of computation that are left. */
  function ComputeLeft(j: Job, time: nat): int {
    if j.active then time + 1 - j.compute else 0
  }

  /** Ticks for which the job will still be at the head. */
  ghost function JobLeft(j0: Job, j: Job, time: nat): int
    requires ValidProgram(j0.program)
  {
    ComputeLeft(j, time) + Sum(PagesLeft(j0, j, time))
  }

  // ---------- One tick of the head ----------

  /** The current page is in or on its way in, no other page moves, and every page visited so far has been called in. */
  ghost predicate Served(j0: Job, j: Job)
    requires ValidProgram(j0.program) && ValidJob(j)
  {
    && Timer(j) >= 0
    && (forall p | 0 <= p < MAXPROCPAGES && p != CurrentPage(j) :: j.pages[p] == OUT || j.pages[p] == 0)
    && (forall p | 0 <= p < MAXPROCPAGES && Visits(j0, j.compute, p) :: j.pages[p] >= 0)
  }

  /** The current page is called in if it is out. */
  function Called(j: Job): (r: Job)
    requires ValidJob(j)
    ensures ValidJob(r)
  {
    if Timer(j) == OUT then j.(pages := j.pages[CurrentPage(j) := PAGEWAIT]) else j
  }

  /** Called in or not, the pages have as long to go. */
  lemma CallCostsNothing(j0: Job, j: Job, time: nat, p: nat)
    requires ValidProgram(j0.program) && ValidJob(j) && p < MAXPROCPAGES
    ensures PageLeft(j0, Called(j), time, p) == PageLeft(j0, j, time, p)
  {
  }

  lemma VisitsNow(j0: Job, j: Job, time: nat)
    requires Follows(j0, j) && j.active && ValidJob(j) && j.compute <= time
    ensures Visits(j0, time, CurrentPage(j))
  {
    assert Reach(j0.program, j0.control, j.compute, j.control);
  }

  /** After one more step no page has been visited but the old ones and the current one. */
  lemma VisitsNext(j0: Job, j: Job, m: nat, p: nat)
    requires Follows(j0, j) && j.active && ValidJob(j) && Visits(j0, j.compute, p)
    requires m + 1 == j.compute || (m == 0 && j.compute == 0)
    ensures p == CurrentPage(j) || (j.compute > 0 && Visits(j0, m, p))
  {
    var i: nat, c :| i <= j.compute && Reach(j0.program, j0.control, i, c) && c.pc / PAGESIZE == p;
    if i == j.compute {
      ReachOnce(j0.program, j0.control, i, c, j.control);
    } else {
      assert i <= m;
    }
  }

  /** A job that has neither computed nor been called in. */
  ghost predicate Untouched(j: Job) {
    j.compute == 0 && j.pages == AllOut()
  }

  lemma CalledIsServed(j0: Job, j: Job)
    requires Follows(j0, j) && j.active && ValidJob(j) && Untouched(j)
    ensures Served(j0, Called(j))
  {
    forall p | 0 <= p < MAXPROCPAGES && Visits(j0, j.compute, p)
      ensures p == CurrentPage(j)
    {
      VisitsNext(j0, j, 0, p);
    }
  }

  /** The head waits: its page comes one tick closer. */
  lemma WaitingHead(j0: Job, j: Job)
    requires ValidProgram(j0.program) && ValidJob(j) && j.active && Served(j0, j) && Timer(j) > 0
    ensures Called(Waited(j)) == Waited(j) && Served(j0, Waited(j))
    ensures Waited(j).pages == j.pages[CurrentPage(j) := Timer(j) - 1]
  {
  }

  /** The head computes and moves on. */
  lemma ComputingHead(j0: Job, j: Job)
    requires Follows(j0, j) && ValidJob(j) && j.active && Served(j0, j) && Timer(j) == 0
    requires !AtExit(j.program, j.control.pc)
    ensures AgeJob(Stepped(j)) == Stepped(j) && Served(j0, Called(Stepped(j)))
  {
    var t := Stepped(j);
    assert AgePages(j.pages) == j.pages;
    StepFollows(j0, j);
    forall p | 0 <= p < MAXPROCPAGES && Visits(j0, t.compute, p)
      ensures p == CurrentPage(t) || j.pages[p] >= 0
    {
      VisitsNext(j0, t, j.compute, p);
    }
  }

  /** At its exit the head has waited for all its pages. */
  lemma FinishingHead(j0: Job, j: Job, time: nat, p: nat)
    requires Follows(j0, j) && ValidJob(j) && j.active && Served(j0, j) && Timer(j) == 0
    requires HaltsAt(j0, time) && AtExit(j.program, j.control.pc) && p < MAXPROCPAGES
    ensures j.compute == time && PageLeft(j0, j, time, p) == 0
  {
    HaltsOnce(j0.program, j0.control, time, j.compute, j.control);
  }

  /** The head's job after a whole tick. */
  function HeadNext(j: Job): (r: Job)
    requires ValidJob(j)
    ensures ValidJob(r)
  {
    var t := AgeJob(Stepped(j));
    if t.active then Called(t) else t
  }

  /** A head that goes on stays served. */
  lemma HeadStaysServed(j0: Job, j: Job)
    requires Follows(j0, j) && ValidJob(j) && j.active && Served(j0, j) && HeadNext(j).active
    ensures Served(j0, HeadNext(j))
  {
    if Timer(j) > 0 {
      WaitingHead(j0, j);
    } else {
      ComputingHead(j0, j);
    }
  }

  /** The head's wait for one page: a tick shorter if it waited for this one. */
  lemma HeadPageLeft(j0: Job, j: Job, time: nat, p: nat)
    requires Follows(j0, j) && ValidJob(j) && j.active && Served(j0, j) && HaltsAt(j0, time) && p < MAXPROCPAGES
    ensures PageLeft(j0, HeadNext(j), time, p)
         == PageLeft(j0, j, time, p) - (if p == CurrentPage(j) && Timer(j) > 0 then 1 else 0)
  {
    FinishedCompute(j0, j, time);
    if Timer(j) > 0 {
      WaitingHead(j0, j);
      VisitsNow(j0, j, time);
    } else if AtExit(j.program, j.control.pc) {
      FinishingHead(j0, j, time, p);
    } else {
      ComputingHead(j0, j);
      CallCostsNothing(j0, Stepped(j), time, p);
    }
  }

  lemma HeadComputeLeft(j0: Job, j: Job, time: nat)
    requires Follows(j0, j) && ValidJob(j) && j.active && Served(j0, j) && HaltsAt(j0, time)
    ensures ComputeLeft(HeadNext(j), time) == ComputeLeft(j, time) - (if Timer(j) == 0 then 1 else 0)
  {
    HaltsOnce(j0.program, j0.control, time, j.compute, j.control);
  }

  lemma HeadPagesLeft(j0: Job, j: Job, time: nat)
    requires Follows(j0, j) && ValidJob(j) && j.active && Served(j0, j) && HaltsAt(j0, time)
    ensures Sum(PagesLeft(j0, HeadNext(j), time)) == Sum(PagesLeft(j0, j, time)) - (if Timer(j) > 0 then 1 else 0)
  {
    var xs, ys := PagesLeft(j0, j, time), PagesLeft(j0, HeadNext(j), time);
    var p := CurrentPage(j);
    var d := if Timer(j) > 0 then 1 else 0;
    forall q | 0 <= q < |xs|
      ensures ys[q] == xs[p := xs[p] - d][q]
    {
      HeadPageLeft(j0, j, time, q);
    }
    assert ys == xs[p := xs[p] - d];
    SumUpdate(xs, |xs|, p, xs[p] - d);
  }

  /** Every tick at the head counts. */
  lemma HeadLeft(j0: Job, j: Job, time: nat)
    requires Follows(j0, j) && ValidJob(j) && j.active && Served(j0, j) && HaltsAt(j0, time)
    ensures JobLeft(j0, HeadNext(j), time) == JobLeft(j0, j, time) - 1
  {
    HeadPagesLeft(j0, j, time);
    HeadComputeLeft(j0, j, time);
  }

  /** A tick for a job away from the head changes its block count at most. */
  lemma UntouchedTick(j: Job)
    requires ValidJob(j) && (if j.active then Untouched(j) else j.pages == AllOut())
    ensures var t := AgeJob(Stepped(j)); t == j.(block := t.block)
    ensures AgeJob(j) == j
  {
    assert AgePages(j.pages) == j.pages;
  }

  lemma BlockCostsNothing(j0: Job, j: Job, block: nat, time: nat)
    requires ValidProgram(j0.program)
    ensures JobLeft(j0, j.(block := block), time) == JobLeft(j0, j, time)
  {
    assert PagesLeft(j0, j.(block := block), time) == PagesLeft(j0, j, time);
  }

  lemma CallLeavesLeft(j0: Job, j: Job, time: nat)
    requires ValidProgram(j0.program) && ValidJob(j)
    ensures JobLeft(j0, Called(j), time) == JobLeft(j0, j, time)
  {
    forall p | 0 <= p < MAXPROCPAGES
      ensures PagesLeft(j0, Called(j), time)[p] == PagesLeft(j0, j, time)[p]
    {
      CallCostsNothing(j0, j, time, p);
    }
    assert PagesLeft(j0, Called(j), time) == PagesLeft(j0, j, time);
  }

  // ---------- One tick of the machine ----------

  /** The job in the first occupied slot. */
  function HeadJob(s: State): (r: Option<nat>)
    requires WellFormed(s)
    ensures r.Some? ==> r.value < |s.jobs| && s.jobs[r.value].active
    ensures r.None? <==> AllDone(s)
  {
    match FirstOccupied(s, 0)
    case None => None
    case Some(i) => s.slots[i]
  }

  /** Nobody but the job at the head has computed or has been called in. */
  ghost predicate OthersUntouched(s: State, k: nat) {
    forall m | 0 <= m < |s.jobs| && m != k && s.jobs[m].active :: Untouched(s.jobs[m])
  }

  /** A state of a simulation with the basic pager after its first tick. */
  ghost predicate Serving(jobs0: seq<Job>, times: seq<nat>, s: State) {
    && BasicReady(jobs0, times, s)
    && match HeadJob(s)
       case None => true
       case Some(k) => OthersUntouched(s, k) && Served(jobs0[k], s.jobs[k])
  }

  lemma OtherTick(s: State, k: nat, m: nat)
    requires Inv(s) && OthersUntouched(s, k) && m < |s.jobs| && m != k
    ensures var t := Tick(s).jobs[m]; t == s.jobs[m].(block := t.block)
  {
    TickOfJob(s, m);
    UntouchedTick(s.jobs[m]);
    UntouchedTick(AllStep(s).jobs[m]);
  }

  lemma HeadIsRunning(s: State, k: nat)
    requires Inv(s) && HeadJob(s) == Some(k)
    ensures Holds(s, FirstOccupied(s, 0).value, k) && Running(s, k)
  {
    assert Holds(s, FirstOccupied(s, 0).value, k);
  }

  lemma HeadTick(s: State, k: nat)
    requires Inv(s) && HeadJob(s) == Some(k)
    ensures Tick(s).jobs[k] == AgeJob(Stepped(s.jobs[k]))
  {
    var h := FirstOccupied(s, 0).value;
    HeadIsRunning(s, k);
    TickOfJob(s, k);
    AllStepEffect(s);
    var t := AllStep(s);
    if t.jobs[k].active {
      assert Holds(t, h, k);
    } else {
      UntouchedTick(t.jobs[k]);
    }
  }

  lemma EmptyStays(s: State, i: nat)
    requires Inv(s) && i < |s.slots| && s.slots[i].None?
    ensures Inv(Tick(s)) && Tick(s).slots[i].None?
  {
    AllStepEffect(s);
    AllAgeEffect(AllStep(s));
  }

  lemma NobodyBefore(s: State, h: nat)
    requires Inv(s) && FirstOccupied(s, 0) == Some(h)
    ensures forall i | 0 <= i < h :: !Occupied(Tick(s), i)
  {
    forall i | 0 <= i < h
      ensures !Occupied(Tick(s), i)
    {
      assert !Occupied(s, i);
      EmptyStays(s, i);
    }
  }

  /** A head that stays active stays the head. */
  lemma HeadGoesOn(s: State, k: nat)
    requires Inv(s) && HeadJob(s) == Some(k) && Tick(s).jobs[k].active
    ensures HeadJob(Tick(s)) == Some(k)
  {
    var h := FirstOccupied(s, 0).value;
    HeadIsRunning(s, k);
    TickKeepsSlot(s, h, k);
    NobodyBefore(s, h);
    FirstIs(Tick(s), h);
  }

  lemma {:induction false} SameFirst(s: State, t: State, i: nat)
    requires WellFormed(s) && WellFormed(t) && |t.slots| == |s.slots| && i <= |s.slots|
    requires forall j | 0 <= j < |s.slots| :: Occupied(t, j) <==> Occupied(s, j)
    ensures FirstOccupied(t, i) == FirstOccupied(s, i)
    decreases |s.slots| - i
  {
    if i < |s.slots| {
      SameFirst(s, t, i + 1);
    }
  }

  lemma CallKeepsHeadJob(s: State)
    requires WellFormed(s)
    ensures HeadJob(CallHeadIn(s)) == HeadJob(s)
  {
    SameFirst(s, CallHeadIn(s), 0);
  }

  lemma CallIsCalled(s: State, m: nat)
    requires BasicInv(s) && m < |s.jobs|
    ensures CallHeadIn(s).jobs[m] == if HeadJob(s) == Some(m) then Called(s.jobs[m]) else s.jobs[m]
  {
    if HeadJob(s) == Some(m) {
      assert NoneLeaving(s.jobs[m]);
    }
  }

  // ---------- The whole tick ----------

  lemma ServingTickOfHead(jobs0: seq<Job>, times: seq<nat>, s: State, k: nat)
    requires Serving(jobs0, times, s) && HeadJob(s) == Some(k)
    ensures BasicTick(s).jobs[k] == HeadNext(s.jobs[k])
    ensures HeadJob(Tick(s)) == Some(k) <==> HeadNext(s.jobs[k]).active
  {
    BasicTickKeepsInv(s);
    HeadTick(s, k);
    CallIsCalled(Tick(s), k);
    if Tick(s).jobs[k].active {
      HeadGoesOn(s, k);
    }
  }

  lemma ServingTickOfOther(jobs0: seq<Job>, times: seq<nat>, s: State, k: nat, m: nat)
    requires Serving(jobs0, times, s) && HeadJob(s) == Some(k) && m < |s.jobs| && m != k
    ensures var t := BasicTick(s).jobs[m]; var u := s.jobs[m].(block := t.block);
      t == if HeadJob(Tick(s)) == Some(m) then Called(u) else u
  {
    BasicTickKeepsInv(s);
    OtherTick(s, k, m);
    CallIsCalled(Tick(s), m);
  }

  lemma BlockedFollows(j0: Job, j: Job, block: nat)
    requires Follows(j0, j) && ValidJob(j)
    ensures Follows(j0, j.(block := block)) && ValidJob(j.(block := block))
  {
  }

  /** The next job at the head has just been called in for the first time. */
  lemma NewHeadIsServed(jobs0: seq<Job>, times: seq<nat>, s: State, k: nat, m: nat)
    requires Serving(jobs0, times, s) && HeadJob(s) == Some(k) && HeadJob(Tick(s)) == Some(m) && m != k
    ensures Served(jobs0[m], BasicTick(s).jobs[m])
  {
    ServingTickOfOther(jobs0, times, s, k, m);
    var block := BasicTick(s).jobs[m].block;
    BasicTickKeepsInv(s);
    OtherTick(s, k, m);
    BlockedFollows(jobs0[m], s.jobs[m], block);
    CalledIsServed(jobs0[m], s.jobs[m].(block := block));
  }

  lemma OthersStayUntouched(jobs0: seq<Job>, times: seq<nat>, s: State, k: nat, h: nat)
    requires Serving(jobs0, times, s) && HeadJob(s) == Some(k) && HeadJob(Tick(s)) == Some(h)
    ensures OthersUntouched(BasicTick(s), h)
  {
    var t := BasicTick(s);
    forall m | 0 <= m < |t.jobs| && m != h && t.jobs[m].active
      ensures Untouched(t.jobs[m])
    {
      if m == k {
        ServingTickOfHead(jobs0, times, s, k);
      } else {
        ServingTickOfOther(jobs0, times, s, k, m);
      }
    }
  }

  lemma HeadAfterTick(s: State)
    requires BasicInv(s)
    ensures HeadJob(BasicTick(s)) == HeadJob(Tick(s))
  {
    BasicTickKeepsInv(s);
    CallKeepsHeadJob(Tick(s));
  }

  /** From tick to tick exactly one job is being served. */
  lemma ServingGoesOn(jobs0: seq<Job>, times: seq<nat>, s: State)
    requires Serving(jobs0, times, s) && !AllDone(s)
    ensures Serving(jobs0, times, BasicTick(s))
  {
    TickKeepsReady(jobs0, times, s);
    HeadAfterTick(s);
    var k := HeadJob(s).value;
    if HeadJob(Tick(s)).Some? {
      var h := HeadJob(Tick(s)).value;
      OthersStayUntouched(jobs0, times, s, k, h);
      if h == k {
        ServingTickOfHead(jobs0, times, s, k);
        HeadStaysServed(jobs0[k], s.jobs[k]);
      } else {
        NewHeadIsServed(jobs0, times, s, k, h);
      }
    }
  }

  lemma OtherLeft(jobs0: seq<Job>, times: seq<nat>, s: State, k: nat, m: nat)
    requires Serving(jobs0, times, s) && HeadJob(s) == Some(k) && m < |s.jobs| && m != k
    ensures JobLeft(jobs0[m], BasicTick(s).jobs[m], times[m]) == JobLeft(jobs0[m], s.jobs[m], times[m])
  {
    ServingTickOfOther(jobs0, times, s, k, m);
    var block := BasicTick(s).jobs[m].block;
    BlockCostsNothing(jobs0[m], s.jobs[m], block, times[m]);
    CallLeavesLeft(jobs0[m], s.jobs[m].(block := block), times[m]);
  }

  // ---------- The whole queue ----------

  ghost predicate SameQueue(jobs0: seq<Job>, times: seq<nat>, s: State) {
    |jobs0| == |times| == |s.jobs| && forall k | 0 <= k < |jobs0| :: ValidProgram(jobs0[k].program)
  }

  ghost function Lefts(jobs0: seq<Job>, times: seq<nat>, s: State): (r: seq<int>)
    requires SameQueue(jobs0, times, s)
    ensures |r| == |s.jobs|
    ensures forall k | 0 <= k < |s.jobs| :: r[k] == JobLeft(jobs0[k], s.jobs[k], times[k])
  {
    seq(|s.jobs|, k requires 0 <= k < |s.jobs| => JobLeft(jobs0[k], s.jobs[k], times[k]))
  }

  /** Ticks until the end. */
  ghost function Left(jobs0: seq<Job>, times: seq<nat>, s: State): int
    requires SameQueue(jobs0, times, s)
  {
    Sum(Lefts(jobs0, times, s))
  }

  lemma ReadyIsSameQueue(jobs0: seq<Job>, times: seq<nat>, s: State)
    requires BasicReady(jobs0, times, s)
    ensures SameQueue(jobs0, times, s)
  {
    forall k | 0 <= k < |jobs0|
      ensures ValidProgram(jobs0[k].program)
    {
      assert Follows(jobs0[k], s.jobs[k]);
    }
  }

  lemma OneLess(xs: seq<int>, ys: seq<int>, k: nat)
    requires |ys| == |xs| && k < |xs| && ys[k] == xs[k] - 1 && forall m | 0 <= m < |xs| && m != k :: ys[m] == xs[m]
    ensures Sum(ys) == Sum(xs) - 1
  {
    assert ys == xs[k := xs[k] - 1];
    SumUpdate(xs, |xs|, k, xs[k] - 1);
  }

  /** No tick is lost. */
  lemma TickCounts(jobs0: seq<Job>, times: seq<nat>, s: State)
    requires Serving(jobs0, times, s) && !AllDone(s)
    ensures Serving(jobs0, times, BasicTick(s)) && SameQueue(jobs0, times, s) && SameQueue(jobs0, times, BasicTick(s))
    ensures Left(jobs0, times, BasicTick(s)) == Left(jobs0, times, s) - 1
  {
    ServingGoesOn(jobs0, times, s);
    ReadyIsSameQueue(jobs0, times, s);
    ReadyIsSameQueue(jobs0, times, BasicTick(s));
    var k := HeadJob(s).value;
    ServingTickOfHead(jobs0, times, s, k);
    HeadLeft(jobs0[k], s.jobs[k], times[k]);
    var xs, ys := Lefts(jobs0, times, s), Lefts(jobs0, times, BasicTick(s));
    forall m | 0 <= m < |xs| && m != k
      ensures ys[m] == xs[m]
    {
      OtherLeft(jobs0, times, s, k, m);
    }
    OneLess(xs, ys, k);
  }

  // ---------- The first tick ----------

  /** A state before the first call of the pager. */
  ghost predicate Unserved(jobs0: seq<Job>, times: seq<nat>, s: State) {
    && BasicReady(jobs0, times, s)
    && forall m | 0 <= m < |s.jobs| && s.jobs[m].active :: Untouched(s.jobs[m])
  }

  /** In the first tick nobody computes, and the head is called in. */
  lemma FirstTickOf(jobs0: seq<Job>, times: seq<nat>, s: State, k: nat, m: nat)
    requires Unserved(jobs0, times, s) && HeadJob(s) == Some(k) && m < |s.jobs|
    ensures HeadJob(BasicTick(s)) == Some(k)
    ensures var t := BasicTick(s).jobs[m]; var u := s.jobs[m].(block := t.block); t == if m == k then Called(u) else u
  {
    BasicTickKeepsInv(s);
    HeadTick(s, k);
    UntouchedTick(s.jobs[k]);
    HeadGoesOn(s, k);
    HeadAfterTick(s);
    if m != k {
      OtherTick(s, k, m);
    }
    CallIsCalled(Tick(s), m);
  }

  lemma FirstHeadIsServed(jobs0: seq<Job>, times: seq<nat>, s: State, k: nat)
    requires Unserved(jobs0, times, s) && HeadJob(s) == Some(k)
    ensures Served(jobs0[k], BasicTick(s).jobs[k])
  {
    FirstTickOf(jobs0, times, s, k, k);
    var block := BasicTick(s).jobs[k].block;
    BlockedFollows(jobs0[k], s.jobs[k], block);
    CalledIsServed(jobs0[k], s.jobs[k].(block := block));
  }

  lemma FirstTickLeft(jobs0: seq<Job>, times: seq<nat>, s: State, k: nat, m: nat)
    requires Unserved(jobs0, times, s) && HeadJob(s) == Some(k) && m < |s.jobs|
    ensures JobLeft(jobs0[m], BasicTick(s).jobs[m], times[m]) == JobLeft(jobs0[m], s.jobs[m], times[m])
  {
    FirstTickOf(jobs0, times, s, k, m);
    var u := s.jobs[m].(block := BasicTick(s).jobs[m].block);
    BlockCostsNothing(jobs0[m], s.jobs[m], u.block, times[m]);
    CallLeavesLeft(jobs0[m], u, times[m]);
  }

  lemma WaitCostsNothing(j0: Job, j: Job, t: Job, time: nat, p: nat)
    requires ValidProgram(j0.program) && ValidJob(j) && p < MAXPROCPAGES
    requires var u := j.(block := t.block); t == u || t == Called(u)
    ensures PageLeft(j0, t, time, p) == PageLeft(j0, j, time, p)
  {
    CallCostsNothing(j0, j.(block := t.block), time, p);
  }

  lemma FirstTickPageLeft(jobs0: seq<Job>, times: seq<nat>, s: State, k: nat, m: nat, p: nat)
    requires Unserved(jobs0, times, s) && HeadJob(s) == Some(k) && m < |s.jobs| && p < MAXPROCPAGES
    ensures PageLeft(jobs0[m], BasicTick(s).jobs[m], times[m], p) == PageLeft(jobs0[m], s.jobs[m], times[m], p)
  {
    FirstTickOf(jobs0, times, s, k, m);
    WaitCostsNothing(jobs0[m], s.jobs[m], BasicTick(s).jobs[m], times[m], p);
  }

  lemma FirstTickServes(jobs0: seq<Job>, times: seq<nat>, s: State, k: nat)
    requires Unserved(jobs0, times, s) && HeadJob(s) == Some(k)
    ensures Serving(jobs0, times, BasicTick(s))
  {
    var t := BasicTick(s);
    TickKeepsReady(jobs0, times, s);
    FirstHeadIsServed(jobs0, times, s, k);
    FirstTickOf(jobs0, times, s, k, k);
    forall m | 0 <= m < |t.jobs| && m != k && t.jobs[m].active
      ensures Untouched(t.jobs[m])
    {
      FirstTickOf(jobs0, times, s, k, m);
    }
  }

  /** The first tick only calls the first page in: it is the one tick that is lost. */
  lemma FirstTick(jobs0: seq<Job>, times: seq<nat>, s: State)
    requires Unserved(jobs0, times, s) && !AllDone(s)
    ensures Serving(jobs0, times, BasicTick(s)) && SameQueue(jobs0, times, s) && SameQueue(jobs0, times, BasicTick(s))
    ensures Left(jobs0, times, BasicTick(s)) == Left(jobs0, times, s)
  {
    var k := HeadJob(s).value;
    FirstTickServes(jobs0, times, s, k);
    ReadyIsSameQueue(jobs0, times, s);
    ReadyIsSameQueue(jobs0, times, BasicTick(s));
    forall m | 0 <= m < |s.jobs|
      ensures SameLeft(jobs0, times, s, BasicTick(s), m)
    {
      FirstTickLeft(jobs0, times, s, k, m);
    }
    SameLefts(jobs0, times, s, BasicTick(s));
  }

  ghost predicate SameLeft(jobs0: seq<Job>, times: seq<nat>, s: State, t: State, m: nat)
    requires SameQueue(jobs0, times, s) && SameQueue(jobs0, times, t) && m < |s.jobs|
  {
    JobLeft(jobs0[m], t.jobs[m], times[m]) == JobLeft(jobs0[m], s.jobs[m], times[m])
  }

  lemma SameLefts(jobs0: seq<Job>, times: seq<nat>, s: State, t: State)
    requires SameQueue(jobs0, times, s) && SameQueue(jobs0, times, t)
    requires forall m | 0 <= m < |s.jobs| :: SameLeft(jobs0, times, s, t, m)
    ensures Left(jobs0, times, t) == Left(jobs0, times, s)
  {
    forall m | 0 <= m < |s.jobs|
      ensures Lefts(jobs0, times, t)[m] == Lefts(jobs0, times, s)[m]
    {
      assert SameLeft(jobs0, times, s, t, m);
    }
    assert Lefts(jobs0, times, t) == Lefts(jobs0, times, s);
  }

  // ---------- The whole run ----------

  lemma PagesLeftPositive(j0: Job, j: Job, time: nat)
    requires ValidProgram(j0.program)
    ensures Sum(PagesLeft(j0, j, time)) >= 0
  {
    var xs := PagesLeft(j0, j, time);
    var zeros := seq(|xs|, p => 0);
    SumOfZeros(zeros, |xs|);
    SumOrder(zeros, xs, |xs|);
  }

  lemma JobLeftPositive(j0: Job, j: Job, time: nat)
    requires Follows(j0, j) && HaltsAt(j0, time)
    ensures JobLeft(j0, j, time) >= if j.active then 1 else 0
    ensures !j.active ==> JobLeft(j0, j, time) == 0
  {
    FinishedCompute(j0, j, time);
    PagesLeftPositive(j0, j, time);
    if !j.active {
      SumOfZeros(PagesLeft(j0, j, time), |j.pages|);
    }
  }

  lemma SumIsZero(xs: seq<int>)
    requires forall k | 0 <= k < |xs| :: xs[k] >= 0
    ensures Sum(xs) >= 0 && (Sum(xs) == 0 <==> forall k | 0 <= k < |xs| :: xs[k] == 0)
  {
    var zeros := seq(|xs|, k => 0);
    SumOfZeros(zeros, |xs|);
    SumOrder(zeros, xs, |xs|);
    if forall k | 0 <= k < |xs| :: xs[k] == 0 {
      SumOfZeros(xs, |xs|);
    } else {
      var k :| 0 <= k < |xs| && xs[k] != 0;
      assert xs[k] != zeros[k];
    }
  }

  lemma LeftOfJob(jobs0: seq<Job>, times: seq<nat>, s: State, k: nat)
    requires BasicReady(jobs0, times, s) && SameQueue(jobs0, times, s) && k < |s.jobs|
    ensures Lefts(jobs0, times, s)[k] >= 0 && (Lefts(jobs0, times, s)[k] == 0 <==> !s.jobs[k].active)
  {
    JobLeftPositive(jobs0[k], s.jobs[k], times[k]);
  }

  lemma DoneIsInactive(s: State)
    requires Inv(s) && |s.slots| > 0
    ensures AllDone(s) <==> forall k | 0 <= k < |s.jobs| :: !s.jobs[k].active
  {
    if AllDone(s) {
      AllDoneMeansFinished(s);
    } else {
      var k := HeadJob(s).value;
    }
  }

  /** The end is when nothing is left. */
  lemma LeftIsZeroAtTheEnd(jobs0: seq<Job>, times: seq<nat>, s: State)
    requires BasicReady(jobs0, times, s) && |s.slots| > 0
    ensures SameQueue(jobs0, times, s) && Left(jobs0, times, s) >= 0
    ensures AllDone(s) <==> Left(jobs0, times, s) == 0
  {
    ReadyIsSameQueue(jobs0, times, s);
    DoneIsInactive(s);
    var xs := Lefts(jobs0, times, s);
    forall k | 0 <= k < |xs|
      ensures xs[k] >= 0 && (xs[k] == 0 <==> !s.jobs[k].active)
    {
      LeftOfJob(jobs0, times, s, k);
    }
    SumIsZero(xs);
  }

  /** `n` ticks on, `n` ticks less are left. */
  lemma {:induction false} RunCounts(jobs0: seq<Job>, times: seq<nat>, s: State, n: nat)
    requires Serving(jobs0, times, s) && |s.slots| > 0
    requires SameQueue(jobs0, times, s) && n <= Left(jobs0, times, s)
    ensures var t := Iterate(BasicNext(), s, n);
      && Serving(jobs0, times, t) && SameQueue(jobs0, times, t) && |t.slots| == |s.slots|
      && Left(jobs0, times, t) == Left(jobs0, times, s) - n
    decreases n
  {
    if n > 0 {
      LeftIsZeroAtTheEnd(jobs0, times, s);
      TickCounts(jobs0, times, s);
      RunCounts(jobs0, times, BasicTick(s), n - 1);
    }
  }

  lemma RunCountsDown(jobs0: seq<Job>, times: seq<nat>, s: State, n: nat)
    requires Serving(jobs0, times, s) && |s.slots| > 0
    requires SameQueue(jobs0, times, s) && n <= Left(jobs0, times, s)
    ensures var t := Iterate(BasicNext(), s, n);
      && BasicReady(jobs0, times, t) && |t.slots| == |s.slots|
      && (AllDone(t) <==> n == Left(jobs0, times, s))
  {
    RunCounts(jobs0, times, s, n);
    LeftIsZeroAtTheEnd(jobs0, times, Iterate(BasicNext(), s, n));
  }

  /** A reachable state of a simulation with `slots` slots, `left` ticks before its end. */
  ghost function EndsIn(jobs0: seq<Job>, times: seq<nat>, slots: nat, left: int): State -> bool {
    t => BasicReady(jobs0, times, t) && |t.slots| == slots && AllDone(t) == (left == 0)
  }

  lemma EndsAfterFirst(jobs0: seq<Job>, times: seq<nat>, s: State, n: nat, left: int)
    requires Unserved(jobs0, times, s) && |s.slots| > 0 && !AllDone(s) && n > 0
    requires SameQueue(jobs0, times, s) && left == Left(jobs0, times, s) + 1 - n >= 0
    ensures EndsIn(jobs0, times, |s.slots|, left)(Iterate(BasicNext(), s, n))
  {
    FirstTick(jobs0, times, s);
    RunCountsDown(jobs0, times, BasicTick(s), n - 1);
    HoldsAfter(EndsIn(jobs0, times, |s.slots|, left), BasicNext(), s, n);
  }

  lemma EndsNotYet(jobs0: seq<Job>, times: seq<nat>, s: State, left: int)
    requires Unserved(jobs0, times, s) && |s.slots| > 0 && !AllDone(s)
    requires SameQueue(jobs0, times, s) && left == Left(jobs0, times, s) + 1
    ensures EndsIn(jobs0, times, |s.slots|, left)(Iterate(BasicNext(), s, 0))
  {
    LeftIsZeroAtTheEnd(jobs0, times, s);
    HoldsAfter(EndsIn(jobs0, times, |s.slots|, left), BasicNext(), s, 0);
  }

  /** The end comes after exactly as many ticks as are left, and one more for the first call. */
  lemma BasicEnds(jobs0: seq<Job>, times: seq<nat>, s: State, n: nat, left: int)
    requires Unserved(jobs0, times, s) && |s.slots| > 0 && !AllDone(s)
    requires SameQueue(jobs0, times, s) && left == Left(jobs0, times, s) + 1 - n >= 0
    ensures EndsIn(jobs0, times, |s.slots|, left)(Iterate(BasicNext(), s, n))
  {
    if n == 0 {
      EndsNotYet(jobs0, times, s, left);
    } else {
      EndsAfterFirst(jobs0, times, s, n, left);
    }
  }

  // ---------- How long a job is blocked at the head ----------

  /** In the tick that begins at `s` job `k` is at the head and blocked on its page `p`. */
  ghost predicate BlockedOn(s: State, k: nat, p: nat) {
    && WellFormed(s) && HeadJob(s) == Some(k)
    && CurrentPage(s.jobs[k]) == p && Timer(s.jobs[k]) != 0
  }

  ghost function BlockedFlags(s: State, k: nat, p: nat, n: nat): (r: seq<int>)
    ensures |r| == n
    ensures forall t | 0 <= t < n :: r[t] == (if BlockedOn(Iterate(BasicNext(), s, t), k, p) then 1 else 0)
  {
    seq(n, t requires 0 <= t < n => if BlockedOn(Iterate(BasicNext(), s, t), k, p) then 1 else 0)
  }

  /** How many of the `n` ticks from `s` are such ticks. */
  ghost function BlockedTicks(s: State, k: nat, p: nat, n: nat): int {
    Sum(BlockedFlags(s, k, p, n))
  }

  /** What job `k` has still to wait for page `p`. */
  ghost function WaitLeft(jobs0: seq<Job>, times: seq<nat>, s: State, k: nat, p: nat): nat
    requires |jobs0| == |times| && k < |jobs0| && ValidProgram(jobs0[k].program)
  {
    if k < |s.jobs| && p < |s.jobs[k].pages| then PageLeft(jobs0[k], s.jobs[k], times[k], p) else 0
  }

  lemma HeadWaits(jobs0: seq<Job>, times: seq<nat>, s: State, k: nat, p: nat)
    requires Serving(jobs0, times, s) && HeadJob(s) == Some(k) && p < MAXPROCPAGES && ValidProgram(jobs0[k].program)
    ensures WaitLeft(jobs0, times, BasicTick(s), k, p)
         == WaitLeft(jobs0, times, s, k, p) - (if BlockedOn(s, k, p) then 1 else 0)
  {
    ServingTickOfHead(jobs0, times, s, k);
    HeadPageLeft(jobs0[k], s.jobs[k], times[k], p);
    WaitOfJob(jobs0, times, s, BasicTick(s), k, p, HeadNext(s.jobs[k]));
  }

  lemma WaitOfJob(jobs0: seq<Job>, times: seq<nat>, s: State, t: State, k: nat, p: nat, j: Job)
    requires |jobs0| == |times| == |s.jobs| == |t.jobs| && k < |jobs0| && ValidProgram(jobs0[k].program)
    requires ValidJob(s.jobs[k]) && ValidJob(j) && p < MAXPROCPAGES && t.jobs[k] == j
    ensures WaitLeft(jobs0, times, s, k, p) == PageLeft(jobs0[k], s.jobs[k], times[k], p)
    ensures WaitLeft(jobs0, times, t, k, p) == PageLeft(jobs0[k], j, times[k], p)
  {
  }

  lemma OtherWaits(jobs0: seq<Job>, times: seq<nat>, s: State, k: nat, p: nat)
    requires Serving(jobs0, times, s) && HeadJob(s).Some? && HeadJob(s) != Some(k) && k < |s.jobs| && p < MAXPROCPAGES
    requires ValidProgram(jobs0[k].program)
    ensures WaitLeft(jobs0, times, BasicTick(s), k, p) == WaitLeft(jobs0, times, s, k, p)
  {
    var t := BasicTick(s);
    ServingTickOfOther(jobs0, times, s, HeadJob(s).value, k);
    WaitCostsNothing(jobs0[k], s.jobs[k], t.jobs[k], times[k], p);
    WaitOfJob(jobs0, times, s, t, k, p, t.jobs[k]);
  }

  lemma DoneBasicTick(jobs0: seq<Job>, times: seq<nat>, s: State)
    requires BasicReady(jobs0, times, s) && |s.slots| > 0 && AllDone(s)
    ensures BasicTick(s) == s
  {
    DoneTick(s, BasicCalls(Tick(s)));
  }

  /** A tick brings the page one tick closer exactly if the job is blocked on it at the head. */
  lemma WaitTick(jobs0: seq<Job>, times: seq<nat>, s: State, k: nat, p: nat)
    requires Serving(jobs0, times, s) && |s.slots| > 0 && k < |s.jobs| && p < MAXPROCPAGES
    ensures Serving(jobs0, times, BasicTick(s)) && SameQueue(jobs0, times, s) && SameQueue(jobs0, times, BasicTick(s))
    ensures WaitLeft(jobs0, times, BasicTick(s), k, p)
         == WaitLeft(jobs0, times, s, k, p) - (if BlockedOn(s, k, p) then 1 else 0)
  {
    ReadyIsSameQueue(jobs0, times, s);
    if AllDone(s) {
      DoneBasicTick(jobs0, times, s);
    } else {
      ServingGoesOn(jobs0, times, s);
      ReadyIsSameQueue(jobs0, times, BasicTick(s));
      if HeadJob(s) == Some(k) {
        HeadWaits(jobs0, times, s, k, p);
      } else {
        OtherWaits(jobs0, times, s, k, p);
      }
    }
  }

  /** A state after the first tick. */
  ghost predicate Underway(jobs0: seq<Job>, times: seq<nat>, s: State) {
    Serving(jobs0, times, s) && |s.slots| > 0 && SameQueue(jobs0, times, s)
  }

  lemma UnderwayGoesOn(jobs0: seq<Job>, times: seq<nat>, s: State)
    requires Underway(jobs0, times, s)
    ensures Underway(jobs0, times, BasicTick(s))
  {
    if AllDone(s) {
      DoneBasicTick(jobs0, times, s);
    } else {
      ServingGoesOn(jobs0, times, s);
      ReadyIsSameQueue(jobs0, times, BasicTick(s));
    }
  }

  ghost function UnderwayBy(jobs0: seq<Job>, times: seq<nat>): State -> bool {
    s => Underway(jobs0, times, s)
  }

  lemma StaysUnderway(jobs0: seq<Job>, times: seq<nat>, s: State, t: nat)
    requires Unserved(jobs0, times, s) && |s.slots| > 0 && !AllDone(s)
    ensures Underway(jobs0, times, Iterate(BasicNext(), s, t + 1))
  {
    var P := UnderwayBy(jobs0, times);
    FirstTick(jobs0, times, s);
    forall u | P(u)
      ensures P(BasicNext()(u))
    {
      UnderwayGoesOn(jobs0, times, u);
    }
    IterateKeeps(BasicNext(), P, BasicTick(s), t);
    assert P(Iterate(BasicNext(), BasicTick(s), t));
  }

  lemma NextState(s: State, t: nat, u: State)
    requires u == Iterate(BasicNext(), s, t) && WellFormed(u)
    ensures Iterate(BasicNext(), s, t + 1) == BasicTick(u)
  {
    IterateAdd(BasicNext(), s, t, 1);
  }

  /** The wait at the start of tick `t`; the first tick, which is lost, is added at the start. */
  ghost function WaitAt(jobs0: seq<Job>, times: seq<nat>, s: State, k: nat, p: nat, t: nat): nat
    requires |jobs0| == |times| && k < |jobs0| && ValidProgram(jobs0[k].program)
  {
    WaitLeft(jobs0, times, Iterate(BasicNext(), s, t), k, p) + (if t == 0 && BlockedOn(s, k, p) then 1 else 0)
  }

  ghost function Waits(jobs0: seq<Job>, times: seq<nat>, s: State, k: nat, p: nat, n: nat): (r: seq<int>)
    requires |jobs0| == |times| && k < |jobs0| && ValidProgram(jobs0[k].program)
    ensures |r| == n + 1 && forall t | 0 <= t <= n :: r[t] == 0 - WaitAt(jobs0, times, s, k, p, t)
  {
    seq(n + 1, t requires 0 <= t <= n => 0 - WaitAt(jobs0, times, s, k, p, t))
  }

  lemma FirstWaitFalls(jobs0: seq<Job>, times: seq<nat>, s: State, k: nat, p: nat)
    requires Unserved(jobs0, times, s) && |s.slots| > 0 && !AllDone(s)
    requires k < |s.jobs| && p < MAXPROCPAGES && ValidProgram(jobs0[k].program)
    ensures WaitLeft(jobs0, times, BasicTick(s), k, p) == WaitLeft(jobs0, times, s, k, p)
  {
    FirstTickPageLeft(jobs0, times, s, HeadJob(s).value, k, p);
    WaitOfJob(jobs0, times, s, BasicTick(s), k, p, BasicTick(s).jobs[k]);
  }

  lemma WaitAtNext(jobs0: seq<Job>, times: seq<nat>, s: State, k: nat, p: nat, t: nat, u: State, v: State)
    requires |jobs0| == |times| && k < |jobs0| && ValidProgram(jobs0[k].program)
    requires u == Iterate(BasicNext(), s, t) && v == Iterate(BasicNext(), s, t + 1)
    requires WaitLeft(jobs0, times, v, k, p)
          == WaitLeft(jobs0, times, u, k, p) - (if t > 0 && BlockedOn(u, k, p) then 1 else 0)
    ensures WaitAt(jobs0, times, s, k, p, t + 1)
         == WaitAt(jobs0, times, s, k, p, t) - (if BlockedOn(u, k, p) then 1 else 0)
  {
  }

  lemma LaterWaitFalls(jobs0: seq<Job>, times: seq<nat>, s: State, k: nat, p: nat, t: nat)
    requires Unserved(jobs0, times, s) && |s.slots| > 0 && !AllDone(s)
    requires k < |s.jobs| && p < MAXPROCPAGES && ValidProgram(jobs0[k].program) && t > 0
    ensures var u := Iterate(BasicNext(), s, t);
      && WellFormed(u) && WaitLeft(jobs0, times, BasicTick(u), k, p)
                       == WaitLeft(jobs0, times, u, k, p) - (if BlockedOn(u, k, p) then 1 else 0)
  {
    StaysUnderway(jobs0, times, s, t - 1);
    WaitTick(jobs0, times, Iterate(BasicNext(), s, t), k, p);
  }

  lemma WaitsFall(jobs0: seq<Job>, times: seq<nat>, s: State, k: nat, p: nat, t: nat)
    requires Unserved(jobs0, times, s) && |s.slots| > 0 && !AllDone(s)
    requires k < |s.jobs| && p < MAXPROCPAGES && ValidProgram(jobs0[k].program)
    ensures WaitAt(jobs0, times, s, k, p, t + 1)
         == WaitAt(jobs0, times, s, k, p, t) - (if BlockedOn(Iterate(BasicNext(), s, t), k, p) then 1 else 0)
  {
    var u := Iterate(BasicNext(), s, t);
    if t == 0 {
      FirstWaitFalls(jobs0, times, s, k, p);
    } else {
      LaterWaitFalls(jobs0, times, s, k, p, t);
    }
    NextState(s, t, u);
    WaitAtNext(jobs0, times, s, k, p, t, u, BasicTick(u));
  }

  /** Blocked ticks at the head on a page: what the wait for it has gone down by. */
  lemma HeadBlocks(jobs0: seq<Job>, times: seq<nat>, s: State, k: nat, p: nat, n: nat)
    requires Unserved(jobs0, times, s) && |s.slots| > 0 && !AllDone(s)
    requires SameQueue(jobs0, times, s) && k < |s.jobs| && p < MAXPROCPAGES
    ensures BlockedTicks(s, k, p, n) == WaitAt(jobs0, times, s, k, p, 0) - WaitAt(jobs0, times, s, k, p, n)
  {
    var waits, flags := Waits(jobs0, times, s, k, p, n), BlockedFlags(s, k, p, n);
    forall t | 0 <= t < n
      ensures waits[t + 1] == waits[t] + flags[t]
    {
      WaitsFall(jobs0, times, s, k, p, t);
    }
    DifferencesAddUp(waits, flags, n);
  }

  lemma HeadInStaysIn(j0: Job, j: Job, p: nat)
    requires Follows(j0, j) && ValidJob(j) && j.active && Served(j0, j) && HeadNext(j).active
    requires p < MAXPROCPAGES && j.pages[p] == 0
    ensures HeadNext(j).pages[p] == 0
  {
    if Timer(j) > 0 {
      WaitingHead(j0, j);
    } else {
      ComputingHead(j0, j);
    }
  }

  /** A page that is in stays in until its job has finished. */
  lemma InStaysIn(jobs0: seq<Job>, times: seq<nat>, s: State, k: nat, p: nat)
    requires Serving(jobs0, times, s) && !AllDone(s) && k < |s.jobs| && p < MAXPROCPAGES
    requires s.jobs[k].pages[p] == 0 && BasicTick(s).jobs[k].active
    ensures BasicTick(s).jobs[k].pages[p] == 0
  {
    assert s.jobs[k].pages != AllOut();
    assert HeadJob(s) == Some(k);
    ServingTickOfHead(jobs0, times, s, k);
    HeadInStaysIn(jobs0[k], s.jobs[k], p);
  }

  // ---------- From the loaded queue ----------

  /** The pages of the job's pure run. */
  ghost function VisitedPages(j0: Job, time: nat, n: nat): set<int>
    requires ValidProgram(j0.program)
  {
    set p: int | 0 <= p < n && Visits(j0, time, p)
  }

  /** How many pages each job visits. */
  ghost function VisitCounts(jobs0: seq<Job>, times: seq<nat>): (r: seq<int>)
    requires HaltTimes(jobs0, times)
    ensures |r| == |jobs0|
    ensures forall k | 0 <= k < |jobs0| ::
      HaltsAt(jobs0[k], times[k]) && r[k] == |VisitedPages(jobs0[k], times[k], MAXPROCPAGES)|
  {
    seq(|jobs0|, k requires 0 <= k < |jobs0| =>
      assert HaltsAt(jobs0[k], times[k]); |VisitedPages(jobs0[k], times[k], MAXPROCPAGES)|)
  }

  lemma {:induction false} FreshPagesLeft(j: Job, time: nat, n: nat)
    requires FreshJob(j) && n <= MAXPROCPAGES
    ensures SumTo(PagesLeft(j, j, time), n) == PAGEWAIT * |VisitedPages(j, time, n)|
  {
    if n == 0 {
      assert VisitedPages(j, time, n) == {};
    } else {
      FreshPagesLeft(j, time, n - 1);
      var more := if Visits(j, time, n - 1) then {n - 1} else {};
      assert VisitedPages(j, time, n) == VisitedPages(j, time, n - 1) + more;
    }
  }

  lemma FreshLeft(j: Job, time: nat)
    requires FreshJob(j)
    ensures JobLeft(j, j, time) == time + 1 + PAGEWAIT * |VisitedPages(j, time, MAXPROCPAGES)|
  {
    FreshPagesLeft(j, time, MAXPROCPAGES);
  }
}
