/** What every operation keeps, whatever the pager does: frames, slots and the life of a job. */
module Invariants {
  import opened Machine
  import opened Sums
  import opened Simulation

  /** The frames a job owns. */
  function FrameCount(j: Job): (r: nat)
    requires ValidJob(j)
  {
    HeldTo(j.pages, |j.pages|)
  }

  function Frames(jobs: seq<Job>): (r: seq<int>)
    requires forall k | 0 <= k < |jobs| :: ValidJob(jobs[k])
    ensures |r| == |jobs|
    ensures forall k | 0 <= k < |jobs| :: r[k] == FrameCount(jobs[k])
  {
    seq(|jobs|, k requires 0 <= k < |jobs| => FrameCount(jobs[k]))
  }

  /** Every frame is available or owned by one page of one job. */
  ghost predicate FramesConserved(s: State)
    requires WellFormed(s)
  {
    0 <= s.avail && s.avail + Sum(Frames(s.jobs)) == PHYSICALPAGES
  }

  ghost predicate Running(s: State, k: int) {
    exists i :: Holds(s, i, k)
  }

  /** Slots hold distinct, dequeued, active jobs, and are empty only when the queue is. */
  ghost predicate SlotsInv(s: State)
    requires WellFormed(s)
  {
    && (forall i | 0 <= i < |s.slots| && s.slots[i].Some? ::
          s.slots[i].value < s.queueend && s.jobs[s.slots[i].value].active)
    && (forall i, j | 0 <= i < j < |s.slots| && s.slots[i].Some? :: s.slots[i] != s.slots[j])
    && (forall i | 0 <= i < |s.slots| && s.slots[i].None? :: s.queueend == |s.jobs|)
  }

  /** A job is waiting as loaded, or running, or finished with all its pages out. */
  ghost predicate JobsInv(s: State)
    requires WellFormed(s)
  {
    && (forall k | s.queueend <= k < |s.jobs| :: FreshJob(s.jobs[k]))
    && (forall k | 0 <= k < s.queueend && s.jobs[k].active :: Running(s, k))
    && (forall k | 0 <= k < |s.jobs| && !s.jobs[k].active :: s.jobs[k].pages == AllOut())
  }

  ghost predicate Inv(s: State) {
    WellFormed(s) && FramesConserved(s) && SlotsInv(s) && JobsInv(s)
  }

  // ---------- Counting frames ----------

  lemma {:induction false} HeldUpdate(pages: seq<int>, n: nat, p: nat, v: int)
    requires n <= |pages| && p < |pages|
    ensures HeldTo(pages[p := v], n)
         == HeldTo(pages, n) + (if p < n then (if Held(v) then 1 else 0) - (if Held(pages[p]) then 1 else 0) else 0)
  {
    if n > 0 {
      HeldUpdate(pages, n - 1, p, v);
    }
  }

  lemma {:induction false} HeldAfterAging(pages: seq<int>, n: nat)
    requires n <= |pages|
    ensures HeldTo(AgePages(pages), n) + ExpiringTo(pages, n) == HeldTo(pages, n)
  {
    if n > 0 {
      HeldAfterAging(pages, n - 1);
    }
  }

  lemma {:induction false} NothingHeld(n: nat)
    requires n <= MAXPROCPAGES
    ensures HeldTo(AllOut(), n) == 0
  {
    if n > 0 {
      NothingHeld(n - 1);
    }
  }

  /** Replacing one job changes the total by what its own count changes. */
  lemma FramesUpdate(s: State, k: nat, j: Job)
    requires WellFormed(s) && k < |s.jobs| && ValidJob(j)
    ensures Sum(Frames(s.jobs[k := j])) == Sum(Frames(s.jobs)) - FrameCount(s.jobs[k]) + FrameCount(j)
  {
    assert Frames(s.jobs[k := j]) == Frames(s.jobs)[k := FrameCount(j)];
    SumUpdate(Frames(s.jobs), |s.jobs|, k, FrameCount(j));
  }

  lemma PoolAtMostAll(s: State)
    requires WellFormed(s) && FramesConserved(s)
    ensures s.avail <= PHYSICALPAGES
  {
    var zeros := seq(|s.jobs|, k => 0);
    SumOfZeros(zeros, |s.jobs|);
    SumOrder(zeros, Frames(s.jobs), |s.jobs|);
  }

  /** Fewer frames in use are more frames available. */
  lemma FewerFrames(s: State, t: State, k: nat)
    requires Inv(s) && Inv(t) && |t.jobs| == |s.jobs| && k < |s.jobs|
    requires forall m | 0 <= m < |s.jobs| :: FrameCount(t.jobs[m]) <= FrameCount(s.jobs[m])
    requires FrameCount(t.jobs[k]) < FrameCount(s.jobs[k])
    ensures t.avail > s.avail
  {
    SumOrder(Frames(t.jobs), Frames(s.jobs), |s.jobs|);
  }

  // ---------- Each operation keeps the invariant ----------

  lemma StillRunning(s: State, t: State, m: nat)
    requires t.slots == s.slots && Running(s, m)
    ensures Running(t, m)
  {
    var i :| Holds(s, i, m);
    assert Holds(t, i, m);
  }

  lemma PutKeepsOrder(s: State, k: nat, j: Job, t: State)
    requires WellFormed(s) && SlotsInv(s) && JobsInv(s)
    requires k < s.queueend && ValidJob(j) && s.jobs[k].active && j.active
    requires t.jobs == s.jobs[k := j] && t.slots == s.slots && t.queueend == s.queueend && WellFormed(t)
    ensures SlotsInv(t) && JobsInv(t)
  {
    forall m | 0 <= m < t.queueend && t.jobs[m].active
      ensures Running(t, m)
    {
      StillRunning(s, t, m);
    }
  }

  /** Changing a job that stays active, along with the pool, keeps slots and queue in order. */
  lemma PutKeepsInv(s: State, k: nat, j: Job, avail: int)
    requires Inv(s) && k < s.queueend && ValidJob(j) && s.jobs[k].active && j.active
    requires avail >= 0 && avail - s.avail == FrameCount(s.jobs[k]) - FrameCount(j)
    ensures Inv(PutJob(s, k, j).(avail := avail))
  {
    FramesUpdate(s, k, j);
    PutKeepsOrder(s, k, j, PutJob(s, k, j).(avail := avail));
  }

  /** A finished job releases its frames, and its slot passes to the next waiting job. */
  function Finish(s: State, i: nat, k: nat, j: Job): (r: State)
    requires WellFormed(s) && i < |s.slots| && k < |s.jobs| && ValidJob(j)
    ensures WellFormed(r)
  {
    Refill(PutJob(s, k, UnloadJob(j)).(avail := s.avail + FrameCount(j)), i)
  }

  lemma FinishKeepsJobs(s: State, i: nat, k: nat, j: Job)
    requires WellFormed(s) && SlotsInv(s) && JobsInv(s) && Holds(s, i, k) && ValidJob(j)
    ensures JobsInv(Finish(s, i, k, j))
  {
    var t := Finish(s, i, k, j);
    forall m | 0 <= m < t.queueend && t.jobs[m].active
      ensures Running(t, m)
    {
      if m == s.queueend {
        assert Holds(t, i, m);
      } else {
        var n :| Holds(s, n, m);
        assert Holds(t, n, m);
      }
    }
  }

  lemma FinishKeepsSlots(s: State, i: nat, k: nat, j: Job)
    requires WellFormed(s) && SlotsInv(s) && JobsInv(s) && Holds(s, i, k) && ValidJob(j)
    ensures SlotsInv(Finish(s, i, k, j))
  {
  }

  lemma FinishKeepsInv(s: State, i: nat, k: nat, j: Job)
    requires Inv(s) && Holds(s, i, k)
    requires ValidJob(j) && j.pages == s.jobs[k].pages
    ensures Inv(Finish(s, i, k, j))
  {
    NothingHeld(|AllOut()|);
    FramesUpdate(s, k, UnloadJob(j));
    FinishKeepsSlots(s, i, k, j);
    FinishKeepsJobs(s, i, k, j);
  }

  /** A turn of a slot that holds job `k`. */
  lemma StepSlotCases(s: State, i: nat, k: nat)
    requires WellFormed(s) && Holds(s, i, k) && s.jobs[k].active
    ensures var (j, goes) := StepJob(s.jobs[k]);
      && ValidJob(j) && j.active && j.pages == s.jobs[k].pages
      && StepSlot(s, i) == if goes then PutJob(s, k, j).(avail := s.avail) else Finish(s, i, k, j)
  {
  }

  lemma HeldJobKeepsInv(s: State, i: nat, k: nat)
    requires Inv(s) && Holds(s, i, k)
    ensures Inv(StepSlot(s, i))
  {
    StepSlotCases(s, i, k);
    if StepJob(s.jobs[k]).1 {
      PutKeepsInv(s, k, StepJob(s.jobs[k]).0, s.avail);
    } else {
      FinishKeepsInv(s, i, k, StepJob(s.jobs[k]).0);
    }
  }

  lemma StepKeepsInv(s: State, i: nat)
    requires Inv(s) && i < |s.slots|
    ensures Inv(StepSlot(s, i))
  {
    if s.slots[i].None? {
      assert StepSlot(s, i) == s;
    } else {
      HeldJobKeepsInv(s, i, s.slots[i].value);
    }
  }

  lemma AgeFrames(j: Job)
    requires ValidJob(j)
    ensures FrameCount(AgeJob(j)) + ExpiringTo(j.pages, |j.pages|) == FrameCount(j)
  {
    HeldAfterAging(j.pages, |j.pages|);
  }

  lemma AgeSlotEffect(s: State, i: nat, k: nat)
    requires WellFormed(s) && Holds(s, i, k) && k < |s.jobs| && s.jobs[k].active
    ensures AgeSlot(s, i)
         == PutJob(s, k, AgeJob(s.jobs[k])).(avail := s.avail + ExpiringTo(s.jobs[k].pages, |s.jobs[k].pages|))
  {
  }

  lemma AgedJobKeepsInv(s: State, i: nat, k: nat, t: State)
    requires Inv(s) && Holds(s, i, k)
    requires t == PutJob(s, k, AgeJob(s.jobs[k])).(avail := s.avail + ExpiringTo(s.jobs[k].pages, |s.jobs[k].pages|))
    ensures Inv(t)
  {
    AgeFrames(s.jobs[k]);
    PutKeepsInv(s, k, AgeJob(s.jobs[k]), t.avail);
  }

  lemma AgeKeepsInv(s: State, i: nat)
    requires Inv(s) && i < |s.slots|
    ensures Inv(AgeSlot(s, i))
  {
    if s.slots[i].Some? {
      AgeSlotEffect(s, i, s.slots[i].value);
      AgedJobKeepsInv(s, i, s.slots[i].value, AgeSlot(s, i));
    } else {
      assert AgeSlot(s, i) == s;
    }
  }

  lemma SetPageKeepsInv(s: State, slot: int, page: int, v: int, avail: int)
    requires Inv(s) && Addressed(s, slot, page) && ValidPage(v) && avail >= 0
    requires avail - s.avail == (if Held(PageOf(s, slot, page)) then 1 else 0) - (if Held(v) then 1 else 0)
    ensures Inv(SetPage(s, slot, page, v).(avail := avail))
  {
    var k := s.slots[slot].value;
    HeldUpdate(s.jobs[k].pages, |s.jobs[k].pages|, page, v);
    PutKeepsInv(s, k, s.jobs[k].(pages := s.jobs[k].pages[page := v]), avail);
  }

  lemma PageInIs(s: State, i: int, p: int)
    requires WellFormed(s)
    ensures if Addressed(s, i, p) && PageOf(s, i, p) == OUT && s.avail != 0
      then PageIn(s, i, p).0 == SetPage(s, i, p, PAGEWAIT).(avail := s.avail - 1)
      else PageIn(s, i, p).0 == s
  {
  }

  lemma CalledKeepsInv(s: State, i: int, p: int, t: State)
    requires Inv(s) && Addressed(s, i, p) && PageOf(s, i, p) == OUT && s.avail != 0
    requires t == SetPage(s, i, p, PAGEWAIT).(avail := s.avail - 1)
    ensures Inv(t)
  {
    SetPageKeepsInv(s, i, p, PAGEWAIT, s.avail - 1);
  }

  lemma InKeepsInv(s: State, i: int, p: int)
    requires Inv(s)
    ensures Inv(PageIn(s, i, p).0)
  {
    PageInIs(s, i, p);
    if Addressed(s, i, p) && PageOf(s, i, p) == OUT && s.avail != 0 {
      CalledKeepsInv(s, i, p, PageIn(s, i, p).0);
    }
  }

  lemma OutKeepsInv(s: State, i: int, p: int)
    requires Inv(s)
    ensures Inv(PageOut(s, i, p).0)
  {
    if Addressed(s, i, p) && PageOf(s, i, p) == 0 {
      SetPageKeepsInv(s, i, p, -1, s.avail);
    } else {
      assert PageOut(s, i, p).0 == s;
    }
  }

  lemma DoKeepsInv(s: State, o: Op)
    requires Inv(s)
    ensures Inv(Do(s, o))
  {
    match o
    case Step(i) =>
      if i < |s.slots| {
        StepKeepsInv(s, i);
      }
    case Age(i) =>
      if i < |s.slots| {
        AgeKeepsInv(s, i);
      }
    case In(i, p) => InKeepsInv(s, i, p);
    case Out(i, p) => OutKeepsInv(s, i, p);
  }

  // ---------- Whole runs ----------

  lemma EveryOpKeepsInv()
    ensures forall o :: Keeps(Inv, o)
    ensures TurnsKeep(Inv)
  {
    forall o, s | Inv(s)
      ensures Inv(Do(s, o))
    {
      DoKeepsInv(s, o);
    }
  }

  lemma DoToKeepsInv(s: State, ops: seq<Op>, n: nat)
    requires Inv(s) && n <= |ops|
    ensures Inv(DoTo(s, ops, n))
  {
    EveryOpKeepsInv();
    DoToKeeps(Inv, s, ops, n);
  }

  lemma TickKeepsInv(s: State, calls: seq<Op>)
    requires Inv(s)
    ensures Inv(AllStep(s)) && Inv(Tick(s)) && Inv(TickWith(s, calls))
  {
    EveryOpKeepsInv();
    TickKeeps(Inv, s, calls);
  }

  /** The invariant holds after any number of ticks, whatever calls the pager makes. */
  lemma RunKeepsInv(s: State, calls: seq<seq<Op>>, n: nat)
    requires Inv(s) && n <= |calls|
    ensures Inv(Run(s, calls, n))
  {
    EveryOpKeepsInv();
    RunKeeps(Inv, s, calls, n);
  }

  /** `allinit` establishes the invariant. */
  lemma LoadInv(jobs: seq<Job>, procs: nat)
    requires forall k | 0 <= k < |jobs| :: FreshJob(jobs[k])
    ensures Inv(Load(jobs, procs))
  {
    var s := Load(jobs, procs);
    NothingHeld(|AllOut()|);
    SumOfZeros(Frames(jobs), |jobs|);
    forall k | 0 <= k < s.queueend
      ensures Running(s, k)
    {
      assert Holds(s, k, k);
    }
  }

  lemma ActiveIsOccupied(s: State, k: nat)
    requires Inv(s) && k < s.queueend
    ensures s.jobs[k].active ==> exists i :: 0 <= i < |s.slots| && Occupied(s, i)
  {
    if s.jobs[k].active {
      var i :| Holds(s, i, k);
      assert Occupied(s, i);
    }
  }

  /** When no slot is occupied, every job has finished and every frame is back in the pool. */
  lemma AllDoneMeansFinished(s: State)
    requires Inv(s) && AllDone(s) && |s.slots| > 0
    ensures forall k | 0 <= k < |s.jobs| :: !s.jobs[k].active
    ensures s.avail == PHYSICALPAGES
  {
    assert !Occupied(s, 0);
    forall k | 0 <= k < |s.jobs|
      ensures !s.jobs[k].active
    {
      ActiveIsOccupied(s, k);
    }
    NothingHeld(|AllOut()|);
    SumOfZeros(Frames(s.jobs), |s.jobs|);
  }

  lemma DoneIsEmpty(s: State)
    requires Inv(s) && AllDone(s) && |s.slots| > 0
    ensures s.queueend == |s.jobs| && forall i | 0 <= i < |s.slots| :: s.slots[i].None?
  {
    forall i | 0 <= i < |s.slots|
      ensures s.slots[i].None?
    {
      assert !Occupied(s, i);
    }
    assert s.slots[0].None?;
  }

  /** When all is done, no operation changes anything any more. */
  lemma DoneIsFinal(s: State, o: Op)
    requires Inv(s) && AllDone(s) && |s.slots| > 0
    ensures Do(s, o) == s
  {
    DoneIsEmpty(s);
  }

  ghost function Equals(s: State): State -> bool {
    t => t == s
  }

  lemma DoneKeeps(s: State, o: Op)
    requires Inv(s) && AllDone(s) && |s.slots| > 0
    ensures Keeps(Equals(s), o)
  {
    DoneIsFinal(s, o);
  }

  lemma DoneTick(s: State, calls: seq<Op>)
    requires Inv(s) && AllDone(s) && |s.slots| > 0
    ensures Tick(s) == s && TickWith(s, calls) == s
  {
    var P := Equals(s);
    forall o: Op
      ensures Keeps(P, o)
    {
      DoneKeeps(s, o);
    }
    assert TurnsKeep(P);
    TickKeeps(P, s, calls);
    assert P(Tick(s)) && P(TickWith(s, calls));
  }

  lemma RunStaysAt(s: State, calls: seq<seq<Op>>, n: nat, t: State)
    requires WellFormed(s) && n < |calls| && Run(s, calls, n) == t
    requires Inv(t) && AllDone(t) && |t.slots| > 0
    ensures Run(s, calls, n + 1) == t
  {
    DoneTick(t, calls[n]);
  }

  lemma {:induction false} StaysEqual(states: seq<State>, m: nat, n: nat)
    requires m <= n < |states| && forall i | m <= i < n && states[i] == states[m] :: states[i + 1] == states[m]
    ensures states[n] == states[m]
    decreases n
  {
    if m < n {
      StaysEqual(states, m, n - 1);
      assert states[(n - 1) + 1] == states[m];
    }
  }

  /** Ticks after the end of the simulation make no difference. */
  lemma RunEnds(s: State, calls: seq<seq<Op>>, m: nat, n: nat)
    requires Inv(s) && |s.slots| > 0 && m <= n <= |calls| && AllDone(Run(s, calls, m))
    ensures Run(s, calls, n) == Run(s, calls, m)
  {
    RunKeepsInv(s, calls, m);
    var states := States(s, calls, n);
    forall i | m <= i < n && states[i] == states[m]
      ensures states[i + 1] == states[m]
    {
      RunStaysAt(s, calls, i, states[m]);
    }
    StaysEqual(states, m, n);
  }

  /** Frame conservation, in every state of every run. */
  lemma FrameConservation(jobs: seq<Job>, procs: nat, calls: seq<seq<Op>>, n: nat)
    requires forall k | 0 <= k < |jobs| :: FreshJob(jobs[k])
    requires n <= |calls|
    ensures WellFormed(Load(jobs, procs))
    ensures var s := Run(Load(jobs, procs), calls, n);
      && 0 <= s.avail <= PHYSICALPAGES
      && s.avail + Sum(Frames(s.jobs)) == PHYSICALPAGES
      && forall k, p | 0 <= k < |s.jobs| && 0 <= p < |s.jobs[k].pages| :: ValidPage(s.jobs[k].pages[p])
  {
    LoadInv(jobs, procs);
    RunKeepsInv(Load(jobs, procs), calls, n);
    PoolAtMostAll(Run(Load(jobs, procs), calls, n));
  }

  /** A queue entry is waiting as loaded, or running in exactly one slot, or finished with all pages out. */
  ghost predicate InOnePlace(s: State, k: nat)
    requires WellFormed(s) && k < |s.jobs|
  {
    && (Running(s, k) <==> k < s.queueend && s.jobs[k].active)
    && (forall i, j | Holds(s, i, k) && Holds(s, j, k) :: i == j)
    && (k >= s.queueend ==> FreshJob(s.jobs[k]))
    && (!s.jobs[k].active ==> k < s.queueend && s.jobs[k].pages == AllOut())
  }

  lemma InvPlacesJobs(s: State, k: nat)
    requires Inv(s) && k < |s.jobs|
    ensures InOnePlace(s, k)
  {
    if Running(s, k) {
      var i :| Holds(s, i, k);
    }
  }

  /** In every state of every run every job is in one place, and a slot is empty only when no job is waiting. */
  lemma JobPartition(jobs: seq<Job>, procs: nat, calls: seq<seq<Op>>, n: nat)
    requires forall k | 0 <= k < |jobs| :: FreshJob(jobs[k])
    requires n <= |calls|
    ensures WellFormed(Load(jobs, procs))
    ensures var s := Run(Load(jobs, procs), calls, n);
      && (forall k | 0 <= k < |s.jobs| :: InOnePlace(s, k))
      && (forall i | 0 <= i < |s.slots| && s.slots[i].None? :: s.queueend == |s.jobs|)
  {
    LoadInv(jobs, procs);
    RunKeepsInv(Load(jobs, procs), calls, n);
    var s := Run(Load(jobs, procs), calls, n);
    forall k | 0 <= k < |s.jobs|
      ensures InOnePlace(s, k)
    {
      InvPlacesJobs(s, k);
    }
  }
}
