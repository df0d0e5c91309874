/** The basic pager: one slot at a time, and what it keeps. */
module BasicPaging {
  import opened Machine
  import opened Sums
  import opened Programs
  import opened ControlFlow
  import opened Simulation
  import opened Invariants
  import opened Effects
  import opened Transparency

  // ---------- The pager ----------

  /** The first occupied slot, at or after `i`. */
  function FirstOccupied(s: State, i: nat): (r: Option<nat>)
    requires WellFormed(s) && i <= |s.slots|
    ensures r.Some? ==> i <= r.value < |s.slots| && Occupied(s, r.value)
    ensures forall j | i <= j < (if r.Some? then r.value else |s.slots|) :: !Occupied(s, j)
    decreases |s.slots| - i
  {
    if i == |s.slots| then None
    else if Occupied(s, i) then Some(i)
    else FirstOccupied(s, i + 1)
  }

  lemma FirstIs(s: State, h: nat)
    requires WellFormed(s) && h < |s.slots| && Occupied(s, h) && forall i | 0 <= i < h :: !Occupied(s, i)
    ensures FirstOccupied(s, 0) == Some(h)
  {
  }

  /** Page-outs tried in order, up to the first that is accepted; `page` itself is spared. */
  function OutCalls(s: State, i: nat, page: nat, oldpage: nat): (r: seq<Op>)
    requires WellFormed(s) && oldpage <= MAXPROCPAGES
    ensures IsCalls(r)
    decreases MAXPROCPAGES - oldpage
  {
    if oldpage == MAXPROCPAGES then []
    else if oldpage == page then OutCalls(s, i, page, oldpage + 1)
    else if PageOut(s, i, oldpage).1 then [Out(i, oldpage)]
    else [Out(i, oldpage)] + OutCalls(s, i, page, oldpage + 1)
  }

  /** The calls of one invocation of the basic pager. */
  function BasicCalls(s: State): (r: seq<Op>)
    requires WellFormed(s)
    ensures IsCalls(r)
  {
    match FirstOccupied(s, 0)
    case None => []
    case Some(i) =>
      var j := s.jobs[s.slots[i].value];
      var page := CurrentPage(j);
      if j.pages[page] == 0 then []
      else if PageIn(s, i, page).1 then [In(i, page)]
      else [In(i, page)] + OutCalls(s, i, page, 0)
  }

  function BasicTick(s: State): (r: State)
    requires WellFormed(s)
    ensures WellFormed(r) && |r.slots| == |s.slots| && |r.jobs| == |s.jobs|
  {
    TickWith(s, BasicCalls(Tick(s)))
  }

  /** Tick after tick of the main loop with the basic pager. */
  ghost function BasicNext(): State -> State {
    s => if WellFormed(s) then BasicTick(s) else s
  }

  // ---------- What it keeps ----------

  /** No page is on its way out. */
  ghost predicate NoneLeaving(j: Job) {
    forall p | 0 <= p < |j.pages| :: j.pages[p] == OUT || j.pages[p] >= 0
  }

  /** Only the first occupied slot owns frames, and no page is on its way out. */
  ghost predicate HeadOnly(s: State)
    requires WellFormed(s)
  {
    && (forall k | 0 <= k < |s.jobs| :: NoneLeaving(s.jobs[k]))
    && (forall i, j | 0 <= i < j < |s.slots| && Occupied(s, i) && Occupied(s, j) ::
          s.jobs[s.slots[j].value].pages == AllOut())
  }

  ghost predicate BasicInv(s: State) {
    Inv(s) && HeadOnly(s)
  }

  lemma SteppedLeavesNone(j: Job)
    requires ValidJob(j) && NoneLeaving(j)
    ensures NoneLeaving(Stepped(j)) && NoneLeaving(AgeJob(j))
    ensures j.pages == AllOut() ==> Stepped(j).pages == AllOut() && AgeJob(j).pages == AllOut()
  {
  }

  lemma StepHeadPair(s: State, i: nat, j: nat)
    requires BasicInv(s) && i < j < |s.slots|
    requires Occupied(AllStep(s), i) && Occupied(AllStep(s), j)
    ensures AllStep(s).jobs[AllStep(s).slots[j].value].pages == AllOut()
  {
    var t := AllStep(s);
    AllStepEffect(s);
    if t.slots[j] != s.slots[j] {
      NewcomerIsFresh(s, j);
    } else {
      assert Occupied(s, i) && Occupied(s, j);
      SteppedLeavesNone(s.jobs[s.slots[j].value]);
    }
  }

  lemma StepKeepsHead(s: State)
    requires BasicInv(s)
    ensures BasicInv(AllStep(s))
  {
    var t := AllStep(s);
    AllStepEffect(s);
    forall k | 0 <= k < |t.jobs|
      ensures NoneLeaving(t.jobs[k])
    {
      SteppedLeavesNone(s.jobs[k]);
    }
    forall i, j | 0 <= i < j < |t.slots| && Occupied(t, i) && Occupied(t, j)
      ensures t.jobs[t.slots[j].value].pages == AllOut()
    {
      StepHeadPair(s, i, j);
    }
  }

  lemma AgeKeepsHead(s: State)
    requires BasicInv(s)
    ensures BasicInv(AllAge(s))
  {
    var t := AllAge(s);
    AllAgeEffect(s);
    forall k | 0 <= k < |t.jobs|
      ensures NoneLeaving(t.jobs[k])
    {
      SteppedLeavesNone(s.jobs[k]);
    }
    forall i, j | 0 <= i < j < |t.slots| && Occupied(t, i) && Occupied(t, j)
      ensures t.jobs[t.slots[j].value].pages == AllOut()
    {
      assert Occupied(s, i) && Occupied(s, j);
      SteppedLeavesNone(s.jobs[s.slots[j].value]);
    }
  }

  /** A job that is not in the first occupied slot owns no frame. */
  lemma OthersOwnNothing(s: State, m: nat)
    requires BasicInv(s) && m < |s.jobs|
    requires var head := FirstOccupied(s, 0); head.None? || s.slots[head.value] != Some(m)
    ensures FrameCount(s.jobs[m]) == 0
  {
    NothingHeld(|AllOut()|);
    if s.jobs[m].active && m < s.queueend {
      var i :| Holds(s, i, m);
      assert Occupied(s, i);
    }
  }

  /** All frames in use are the head's, so at least PHYSICALPAGES - MAXPROCPAGES stay available. */
  lemma PoolStaysLarge(s: State)
    requires BasicInv(s)
    ensures s.avail >= PHYSICALPAGES - MAXPROCPAGES
  {
    var head := FirstOccupied(s, 0);
    var k := if head.Some? then s.slots[head.value].value else 0;
    var bound := seq(|s.jobs|, m => if m == k then MAXPROCPAGES else 0);
    forall m | 0 <= m < |s.jobs|
      ensures Frames(s.jobs)[m] <= bound[m]
    {
      if m != k {
        OthersOwnNothing(s, m);
      }
    }
    SumOrder(Frames(s.jobs), bound, |s.jobs|);
    SumOfOne(bound, |s.jobs|, k);
  }

  lemma {:induction false} SumOfOne(xs: seq<int>, n: nat, k: nat)
    requires n <= |xs| && forall m | 0 <= m < n && m != k :: xs[m] == 0
    ensures SumTo(xs, n) == if k < n then xs[k] else 0
  {
    if n > 0 {
      SumOfOne(xs, n - 1, k);
    }
  }

  /** The head's current page, if it is out, starts on its way in. */
  function CallHeadIn(s: State): (r: State)
    requires WellFormed(s)
    ensures WellFormed(r) && r.slots == s.slots && |r.jobs| == |s.jobs|
  {
    match FirstOccupied(s, 0)
    case None => s
    case Some(i) =>
      var j := s.jobs[s.slots[i].value];
      if Timer(j) == OUT then SetPage(s, i, CurrentPage(j), PAGEWAIT).(avail := s.avail - 1) else s
  }

  /** The pager's whole effect; `pageout` is never called. */
  lemma BasicOnlyPagesIn(s: State)
    requires BasicInv(s)
    ensures DoAll(s, BasicCalls(s)) == CallHeadIn(s)
    ensures forall c | 0 <= c < |BasicCalls(s)| :: BasicCalls(s)[c].In?
  {
    PoolStaysLarge(s);
    var head := FirstOccupied(s, 0);
    if head.Some? {
      var j := s.jobs[s.slots[head.value].value];
      assert NoneLeaving(j);
      assert Timer(j) == OUT || Timer(j) >= 0;
      DoOne(s, In(head.value, CurrentPage(j)));
    }
  }

  lemma CallLeavesNone(s: State, k: nat)
    requires BasicInv(s) && k < |s.jobs|
    ensures NoneLeaving(CallHeadIn(s).jobs[k])
  {
    assert NoneLeaving(s.jobs[k]);
  }

  lemma CallKeepsOthersOut(s: State, i: nat, j: nat)
    requires BasicInv(s) && i < j < |s.slots| && Occupied(CallHeadIn(s), i) && Occupied(CallHeadIn(s), j)
    ensures CallHeadIn(s).jobs[s.slots[j].value].pages == AllOut()
  {
    assert Occupied(s, i) && Occupied(s, j);
  }

  lemma CallKeepsHead(s: State)
    requires BasicInv(s)
    ensures BasicInv(CallHeadIn(s))
  {
    var t := CallHeadIn(s);
    BasicOnlyPagesIn(s);
    DoToKeepsInv(s, BasicCalls(s), |BasicCalls(s)|);
    forall i, j | 0 <= i < j < |t.slots| && Occupied(t, i) && Occupied(t, j)
      ensures t.jobs[t.slots[j].value].pages == AllOut()
    {
      CallKeepsOthersOut(s, i, j);
    }
    forall k | 0 <= k < |t.jobs|
      ensures NoneLeaving(t.jobs[k])
    {
      CallLeavesNone(s, k);
    }
  }

  /** Only the head holds frames in every state the basic pager leaves behind. */
  lemma BasicTickKeepsInv(s: State)
    requires BasicInv(s)
    ensures BasicInv(Tick(s)) && BasicTick(s) == CallHeadIn(Tick(s)) && BasicInv(BasicTick(s))
  {
    StepKeepsHead(s);
    AgeKeepsHead(AllStep(s));
    BasicOnlyPagesIn(Tick(s));
    CallKeepsHead(Tick(s));
  }

  // ---------- Its runs ----------

  ghost predicate HaltsAt(j: Job, time: nat) {
    ValidProgram(j.program) && HaltsIn(j.program, j.control, time)
  }

  /** The halting times of the queue's jobs. */
  ghost predicate HaltTimes(jobs0: seq<Job>, times: seq<nat>) {
    |times| == |jobs0| && forall k | 0 <= k < |jobs0| :: HaltsAt(jobs0[k], times[k])
  }

  /** A reachable state of a simulation with the basic pager, and the halting times of its jobs. */
  ghost predicate BasicReady(jobs0: seq<Job>, times: seq<nat>, s: State) {
    BasicInv(s) && Transparent(jobs0, s) && HaltTimes(jobs0, times)
  }

  lemma TickKeepsReady(jobs0: seq<Job>, times: seq<nat>, s: State)
    requires BasicReady(jobs0, times, s)
    ensures BasicReady(jobs0, times, BasicTick(s))
  {
    TickIsTransparent(jobs0, s, BasicCalls(Tick(s)));
    BasicTickKeepsInv(s);
  }

  ghost function Ready(jobs0: seq<Job>, times: seq<nat>): State -> bool {
    s => BasicReady(jobs0, times, s)
  }

  ghost function Done(): State -> bool {
    s => WellFormed(s) ==> AllDone(s)
  }
}
