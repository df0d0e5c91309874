/** Which job is in which slot: after loading, when jobs finish, and in what the pager is shown. */
module SlotOrder {
  import opened Machine
  import opened Programs
  import opened Simulation
  import opened Invariants
  import opened Effects
  import opened ClockCalls
  import opened Simulators

  // ---------- Loading ----------

  /** Slot `i` holds job `i`, as far as there are jobs; the others wait, and all frames are available. */
  lemma LoadInOrder(jobs: seq<Job>, procs: nat)
    ensures var s := Load(jobs, procs);
      && s.jobs == jobs && |s.slots| == procs && s.avail == PHYSICALPAGES
      && (forall i, k | 0 <= i < procs :: Holds(s, i, k) <==> i == k < |jobs|)
      && (s.queueend == procs || (s.queueend == |jobs| && procs > |jobs|)) && s.queueend <= procs
  {
  }

  // ---------- Jobs that finish ----------

  /** The job is at an exit, and the page of that statement is in. */
  predicate AtEnd(j: Job) {
    AtExit(j.program, j.control.pc) && exists p :: 0 <= p < |j.pages| && NeedsPage(j, p) && j.pages[p] == 0
  }

  /** The slot is empty, or its job is at its end. */
  predicate Vacates(s: State, i: nat)
    requires WellFormed(s) && i < |s.slots|
  {
    s.slots[i].None? || AtEnd(s.jobs[s.slots[i].value])
  }

  function VacatedTo(s: State, n: nat): (r: nat)
    requires WellFormed(s) && n <= |s.slots|
    ensures r <= n
  {
    if n == 0 then 0 else VacatedTo(s, n - 1) + (if Vacates(s, n - 1) then 1 else 0)
  }

  /** The job that is next in the queue after `n` others, if there is one. */
  function NextJob(s: State, n: nat): Option<nat> {
    if s.queueend + n < |s.jobs| then Some(s.queueend + n) else None
  }

  lemma EndIsExit(j: Job)
    requires ValidJob(j)
    ensures AtEnd(j) <==> AtExit(j.program, j.control.pc) && Timer(j) == 0
  {
    NeedIsCurrent(j);
    forall p | NeedsPage(j, p)
      ensures p == CurrentPage(j)
    {
      OnePage(j, p);
    }
  }

  lemma SlotTurn(u: State, n: nat)
    requires WellFormed(u) && n < |u.slots| && (u.slots[n].Some? ==> u.jobs[u.slots[n].value].active)
    ensures var t := StepSlot(u, n);
      if Vacates(u, n) then
        t.slots == u.slots[n := NextJob(u, 0)] && t.queueend == u.queueend + (if NextJob(u, 0).Some? then 1 else 0)
      else t.slots == u.slots && t.queueend == u.queueend
  {
    if u.slots[n].Some? {
      EndIsExit(u.jobs[u.slots[n].value]);
    }
  }

  /** After the turns of the first `n` slots. */
  ghost predicate Entered(s: State, n: nat, t: State)
    requires WellFormed(s) && n <= |s.slots|
  {
    && |t.slots| == |s.slots| && |t.jobs| == |s.jobs|
    && t.queueend == (if s.queueend + VacatedTo(s, n) < |s.jobs| then s.queueend + VacatedTo(s, n) else |s.jobs|)
    && (forall i | 0 <= i < n :: t.slots[i] == if Vacates(s, i) then NextJob(s, VacatedTo(s, i)) else s.slots[i])
    && (forall i | n <= i < |s.slots| :: t.slots[i] == s.slots[i])
  }

  lemma SameVacates(s: State, n: nat, u: State)
    requires Inv(s) && WellFormed(u) && |u.slots| == |s.slots| && |u.jobs| == |s.jobs| && n < |s.slots|
    requires StepPassed(s, n, u)
    ensures u.slots[n] == s.slots[n] && (Vacates(u, n) <==> Vacates(s, n))
    ensures s.slots[n].Some? ==> u.jobs[s.slots[n].value] == s.jobs[s.slots[n].value]
  {
    HeldBelowNext(s, n);
  }

  lemma NextIs(s: State, u: State, n: nat)
    requires |u.jobs| == |s.jobs| && s.queueend <= |s.jobs|
    requires u.queueend == if s.queueend + n < |s.jobs| then s.queueend + n else |s.jobs|
    ensures NextJob(u, 0) == NextJob(s, n)
    ensures u.queueend + (if NextJob(u, 0).Some? then 1 else 0)
         == if s.queueend + n + 1 < |s.jobs| then s.queueend + n + 1 else |s.jobs|
  {
  }

  lemma SlotVacated(s: State, n: nat, u: State, t: State)
    requires WellFormed(s) && n < |s.slots| && Entered(s, n, u) && Vacates(s, n)
    requires |t.jobs| == |s.jobs| && t.slots == u.slots[n := NextJob(s, VacatedTo(s, n))]
    requires t.queueend
          == if s.queueend + VacatedTo(s, n) + 1 < |s.jobs| then s.queueend + VacatedTo(s, n) + 1 else |s.jobs|
    ensures Entered(s, n + 1, t)
  {
  }

  lemma SlotKept(s: State, n: nat, u: State, t: State)
    requires WellFormed(s) && n < |s.slots| && Entered(s, n, u) && !Vacates(s, n)
    requires |t.jobs| == |s.jobs| && t.slots == u.slots && t.queueend == u.queueend
    ensures Entered(s, n + 1, t)
  {
  }

  lemma EnteredNext(s: State, n: nat, u: State)
    requires Inv(s) && WellFormed(u) && |u.slots| == |s.slots| && |u.jobs| == |s.jobs| && n < |s.slots|
    requires StepPassed(s, n, u) && Entered(s, n, u)
    ensures Entered(s, n + 1, StepSlot(u, n))
  {
    SameVacates(s, n, u);
    SlotTurn(u, n);
    NextIs(s, u, VacatedTo(s, n));
    if Vacates(s, n) {
      SlotVacated(s, n, u, StepSlot(u, n));
    } else {
      SlotKept(s, n, u, StepSlot(u, n));
    }
  }

  ghost predicate EnteredSoFar(s: State, n: nat, t: State)
    requires WellFormed(s)
  {
    && WellFormed(t) && |t.slots| == |s.slots| && |t.jobs| == |s.jobs| && n <= |s.slots|
    && StepPassed(s, n, t) && Entered(s, n, t)
  }

  ghost function EnteredBy(s: State): (nat, State) -> bool
    requires WellFormed(s)
  {
    (n: nat, t: State) => EnteredSoFar(s, n, t)
  }

  lemma EnteredShare(s: State, n: nat, u: State)
    requires Inv(s) && n < |s.slots| && EnteredSoFar(s, n, u)
    ensures EnteredSoFar(s, n + 1, Do(u, Step(n)))
  {
    StepPassNext(s, n, u);
    EnteredNext(s, n, u);
  }

  lemma EnteredMoves(s: State, n: nat)
    requires Inv(s) && n < |s.slots|
    ensures OpMoves(EnteredBy(s), n, Step(n))
  {
    var P := EnteredBy(s);
    forall u | P(n, u)
      ensures P(n + 1, Do(u, Step(n)))
    {
      EnteredShare(s, n, u);
    }
  }

  /** In `allstep` the waiting jobs enter the slots that are vacated, in the order of the queue and of the slots. */
  lemma JobsEnterInOrder(s: State)
    requires Inv(s)
    ensures Entered(s, |s.slots|, AllStep(s))
  {
    StepPassBegin(s);
    forall i: nat | i < |s.slots|
      ensures OpMoves(EnteredBy(s), i, Step(i))
    {
      EnteredMoves(s, i);
    }
    DoToMoves(EnteredBy(s), s, StepOps(|s.slots|), |s.slots|);
    assert EnteredBy(s)(|s.slots|, AllStep(s));
  }

  // ---------- What the pager is shown ----------

  /** The entry of a slot shows the state of its job, or an inactive process without pages. */
  ghost predicate ShowsSlot(s: State, i: int, e: Pentry) {
    && |e.pages| == MAXPROCPAGES
    && (forall k | Holds(s, i, k) && 0 <= k < |s.jobs| ::
          && e.active == s.jobs[k].active && e.pc == s.jobs[k].control.pc && e.npages == MAXPROCPAGES
          && |s.jobs[k].pages| == MAXPROCPAGES
          && forall p | 0 <= p < MAXPROCPAGES :: e.pages[p] <==> s.jobs[k].pages[p] == 0)
    && ((forall k :: !Holds(s, i, k)) ==>
          !e.active && e.pc == 0 && e.npages == 0 && forall p | 0 <= p < MAXPROCPAGES :: !e.pages[p])
  }

  lemma EntryShows(s: State, i: nat)
    requires WellFormed(s)
    ensures ShowsSlot(s, i, if i < |s.slots| then EntryOf(s, i) else NoEntry())
  {
    if i < |s.slots| && s.slots[i].Some? {
      assert Holds(s, i, s.slots[i].value);
    }
  }
}
