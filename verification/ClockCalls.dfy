/**
 What an invocation of pager-lru.c does, page by page: which jobs get a frame, and which page of the others starts
 on its way out. The frames go to the slots in order.
 */
module ClockCalls {
  import opened Machine
  import opened Simulation
  import opened Invariants
  import opened Effects
  import opened ClockHand
  import opened ClockPaging

  /** The page of the statement that the job is at, in numbers. */
  predicate NeedsPage(j: Job, p: int) {
    p * PAGESIZE <= j.control.pc < (p + 1) * PAGESIZE
  }

  /** The page that the job is on is out. */
  predicate Asks(j: Job) {
    exists p :: 0 <= p < |j.pages| && NeedsPage(j, p) && j.pages[p] < -PAGEWAIT
  }

  /** The page that the job is on is in, or on its way in. */
  predicate Served(j: Job) {
    exists p :: 0 <= p < |j.pages| && NeedsPage(j, p) && j.pages[p] >= 0
  }

  lemma OnePage(j: Job, p: int)
    requires ValidJob(j) && NeedsPage(j, p)
    ensures p == CurrentPage(j)
  {
  }

  lemma NeedIsCurrent(j: Job)
    requires ValidJob(j)
    ensures NeedsPage(j, CurrentPage(j)) && (Asks(j) <==> Timer(j) < -PAGEWAIT) && (Served(j) <==> Timer(j) >= 0)
  {
    assert NeedsPage(j, CurrentPage(j));
    forall p | NeedsPage(j, p)
      ensures p == CurrentPage(j)
    {
      OnePage(j, p);
    }
  }

  lemma NeededPage(j: Job, p: int)
    requires ValidJob(j) && 0 <= p < MAXPROCPAGES
    ensures NeedsPage(j, p) ==> (Asks(j) <==> j.pages[p] < -PAGEWAIT) && (Served(j) <==> j.pages[p] >= 0)
  {
    NeedIsCurrent(j);
    if NeedsPage(j, p) {
      OnePage(j, p);
    }
  }

  /** How many of the first `n` slots hold a job whose page is out. */
  function AskersTo(s: State, n: nat): (r: nat)
    requires WellFormed(s) && n <= |s.slots|
    ensures r <= n
  {
    if n == 0 then 0
    else AskersTo(s, n - 1) + (if s.slots[n - 1].Some? && Asks(s.jobs[s.slots[n - 1].value]) then 1 else 0)
  }

  /** One page of a job after the invocation; `frame` says whether there is a frame when the job's turn comes. */
  function PageAfter(j: Job, p: nat, tick: nat, frame: bool): int
    requires p < |j.pages|
  {
    if Asks(j) && frame then (if NeedsPage(j, p) then PAGEWAIT else j.pages[p])
    else if !Served(j) && p == tick % MAXPROCPAGES && j.pages[p] == 0 then -1
    else j.pages[p]
  }

  ghost predicate JobAfter(j: Job, j': Job, tick: nat, frame: bool) {
    && j' == j.(pages := j'.pages) && |j'.pages| == |j.pages|
    && forall p | 0 <= p < |j.pages| :: j'.pages[p] == PageAfter(j, p, tick, frame)
  }

  /** The frames that are left when `askers` jobs have asked. */
  function FramesLeft(avail: int, askers: nat): int {
    if askers < avail then avail - askers else 0
  }

  lemma JobAfterTurn(s: State, i: nat, k: nat, tick: nat)
    requires Inv(s) && Holds(s, i, k)
    ensures var t := ClockSlot(s, i, tick); var j := s.jobs[k];
      && t.slots == s.slots && t.queueend == s.queueend && t.jobs == s.jobs[k := t.jobs[k]]
      && JobAfter(j, t.jobs[k], tick, s.avail > 0)
      && t.avail == (if Asks(j) && s.avail > 0 then s.avail - 1 else s.avail)
  {
    assert Occupied(s, i);
    var j := s.jobs[k];
    NeedIsCurrent(j);
    assert PageOf(s, i, CurrentPage(j)) == Timer(j);
    assert s.jobs[k := j] == s.jobs;
    forall p | NeedsPage(j, p)
      ensures p == CurrentPage(j)
    {
      OnePage(j, p);
    }
  }

  /** After the turns of the first `n` slots. */
  ghost predicate TurnsTaken(s: State, n: nat, tick: nat, t: State)
    requires WellFormed(s)
  {
    && n <= |s.slots| && t.slots == s.slots && t.queueend == s.queueend && |t.jobs| == |s.jobs|
    && t.avail == FramesLeft(s.avail, AskersTo(s, n))
    && (forall i, k | Holds(s, i, k) && i < n :: JobAfter(s.jobs[k], t.jobs[k], tick, AskersTo(s, i) < s.avail))
    && (forall k | 0 <= k < |s.jobs| && !HeldBelow(s, n, k) :: t.jobs[k] == s.jobs[k])
  }
  lemma FramesLeftNext(avail: int, askers: nat, asks: bool)
    requires avail >= 0
    ensures var left := FramesLeft(avail, askers);
      && (left > 0 <==> askers < avail)
      && FramesLeft(avail, askers + (if asks then 1 else 0)) == (if asks && left > 0 then left - 1 else left)
  {
  }

  lemma TurnTaken(s: State, n: nat, tick: nat, u: State, k: nat)
    requires Inv(s) && Inv(u) && TurnsTaken(s, n, tick, u) && n < |s.slots| && Holds(s, n, k)
    ensures TurnsTaken(s, n + 1, tick, ClockSlot(u, n, tick))
  {
    var t := ClockSlot(u, n, tick);
    HeldBelowNext(s, n);
    JobAfterTurn(u, n, k, tick);
    FramesLeftNext(s.avail, AskersTo(s, n), Asks(s.jobs[k]));
    OneMoreTaken(s, n, tick, u, t, k);
  }

  lemma StillTaken(s: State, n: nat, tick: nat, u: State, t: State, k: nat, i: int, m: int)
    requires WellFormed(s) && TurnsTaken(s, n, tick, u) && k < |s.jobs| && !HeldBelow(s, n, k)
    requires |t.jobs| == |u.jobs| && t.jobs == u.jobs[k := t.jobs[k]] && Holds(s, i, m) && i < n
    ensures JobAfter(s.jobs[m], t.jobs[m], tick, AskersTo(s, i) < s.avail)
  {
    assert HeldBelow(s, n, m);
  }

  lemma OneMoreTaken(s: State, n: nat, tick: nat, u: State, t: State, k: nat)
    requires WellFormed(s) && TurnsTaken(s, n, tick, u) && n < |s.slots| && Holds(s, n, k) && k < |s.jobs|
    requires !HeldBelow(s, n, k)
    requires forall m | 0 <= m < |s.jobs| :: HeldBelow(s, n + 1, m) <==> HeldBelow(s, n, m) || m == k
    requires t.slots == u.slots && t.queueend == u.queueend && |t.jobs| == |u.jobs| && t.jobs == u.jobs[k := t.jobs[k]]
    requires JobAfter(s.jobs[k], t.jobs[k], tick, AskersTo(s, n) < s.avail)
    requires t.avail == FramesLeft(s.avail, AskersTo(s, n + 1))
    ensures TurnsTaken(s, n + 1, tick, t)
  {
    forall i, m | Holds(s, i, m) && i < n + 1
      ensures JobAfter(s.jobs[m], t.jobs[m], tick, AskersTo(s, i) < s.avail)
    {
      if i < n {
        StillTaken(s, n, tick, u, t, k, i, m);
      }
    }
  }

  lemma EmptySlotTaken(s: State, n: nat, tick: nat, u: State)
    requires WellFormed(s) && TurnsTaken(s, n, tick, u) && n < |s.slots| && s.slots[n].None?
    requires forall m | 0 <= m < |s.jobs| :: HeldBelow(s, n + 1, m) <==> HeldBelow(s, n, m)
    ensures TurnsTaken(s, n + 1, tick, u)
  {
    assert forall i, k :: Holds(s, i, k) && i < n + 1 ==> i < n;
  }

  ghost predicate TakenSoFar(s: State, n: nat, tick: nat, t: State)
    requires WellFormed(s)
  {
    Inv(t) && TurnsTaken(s, n, tick, t)
  }

  ghost function TakenBy(s: State, tick: nat): (nat, State) -> bool
    requires WellFormed(s)
  {
    (n: nat, t: State) => TakenSoFar(s, n, tick, t)
  }

  lemma TakenNext(s: State, n: nat, tick: nat, u: State)
    requires Inv(s) && n < |s.slots| && TakenSoFar(s, n, tick, u)
    ensures TakenSoFar(s, n + 1, tick, ClockSlot(u, n, tick))
  {
    ShareKeepsInv(u, n, tick);
    if s.slots[n].Some? {
      TurnTaken(s, n, tick, u, s.slots[n].value);
    } else {
      HeldBelowNext(s, n);
      EmptySlotTaken(s, n, tick, u);
      assert ClockSlot(u, n, tick) == u;
    }
  }

  lemma TakenByIs(s: State, n: nat, tick: nat, t: State)
    requires WellFormed(s)
    ensures TakenBy(s, tick)(n, t) == TakenSoFar(s, n, tick, t)
  {
  }

  lemma TakenIsWellFormed(s: State, n: nat, tick: nat, t: State)
    requires WellFormed(s) && TakenSoFar(s, n, tick, t)
    ensures WellFormed(t) && |t.slots| == |s.slots|
  {
  }

  lemma TakenShare(s: State, n: nat, tick: nat, u: State)
    requires Inv(s) && n < |s.slots| && WellFormed(u) && n < |u.slots| && TakenSoFar(s, n, tick, u)
    ensures TakenBy(s, tick)(n + 1, ClockSlot(u, n, tick))
  {
    TakenNext(s, n, tick, u);
  }

  lemma TakenMoves(s: State, n: nat, tick: nat)
    requires Inv(s) && n < |s.slots|
    ensures ShareMoves(TakenBy(s, tick), n, tick)
  {
    var P := TakenBy(s, tick);
    forall u | P(n, u)
      ensures WellFormed(u) && n < |u.slots| && P(n + 1, ClockSlot(u, n, tick))
    {
      TakenByIs(s, n, tick, u);
      TakenIsWellFormed(s, n, tick, u);
      TakenShare(s, n, tick, u);
    }
  }

  /** The whole invocation at time `tick`. */
  ghost predicate PagesTurned(s: State, t: State, tick: nat)
    requires WellFormed(s)
  {
    && t.slots == s.slots && t.queueend == s.queueend && |t.jobs| == |s.jobs|
    && t.avail == FramesLeft(s.avail, AskersTo(s, |s.slots|))
    && (forall i, k | Holds(s, i, k) :: JobAfter(s.jobs[k], t.jobs[k], tick, AskersTo(s, i) < s.avail))
    && (forall k | 0 <= k < |s.jobs| && !Running(s, k) :: t.jobs[k] == s.jobs[k])
  }

  /**
   Slot by slot, a job whose page is out gets a frame as long as there are frames. In each other job whose page is
   not in or on its way in, page `tick % MAXPROCPAGES` starts on its way out if it is in. Nothing else changes.
   */
  lemma ClockPages(s: State, tick: nat)
    requires Inv(s)
    ensures PagesTurned(s, Clock(s, tick), tick)
  {
    var P := TakenBy(s, tick);
    forall i: nat | i < |s.slots|
      ensures ShareMoves(P, i, tick)
    {
      TakenMoves(s, i, tick);
    }
    ClockToMoves(P, s, |s.slots|, tick);
    assert P(|s.slots|, Clock(s, tick));
    forall k | 0 <= k < |s.jobs| && !Running(s, k)
      ensures !HeldBelow(s, |s.slots|, k)
    {
    }
  }

  lemma LeavingPage(j: Job, j': Job, p: int, tick: nat, frame: bool)
    requires ValidJob(j) && JobAfter(j, j', tick, frame) && 0 <= p < MAXPROCPAGES && j.pages[p] == 0
    ensures j'.pages[p] != 0 ==> p == tick % MAXPROCPAGES && !Served(j) && j'.pages[p] == -1
  {
    NeededPage(j, p);
  }

  /** A page that starts on its way out is page `tick % MAXPROCPAGES` of a job that is not served. */
  lemma OnlyTheHandsPage(s: State, tick: nat, k: nat, p: nat)
    requires Inv(s) && k < |s.jobs| && p < MAXPROCPAGES && s.jobs[k].pages[p] == 0
    requires Clock(s, tick).jobs[k].pages[p] != 0
    ensures Running(s, k) && p == tick % MAXPROCPAGES && !Served(s.jobs[k]) && Clock(s, tick).jobs[k].pages[p] == -1
  {
    ClockPages(s, tick);
    if i :| Holds(s, i, k) {
      LeavingPage(s.jobs[k], Clock(s, tick).jobs[k], p, tick, AskersTo(s, i) < s.avail);
    }
  }

  /** Where a job's page is refused, page `tick % MAXPROCPAGES` leaves if it is in. */
  lemma RefusedJobLosesPage(s: State, tick: nat, i: nat, k: nat)
    requires Inv(s) && Holds(s, i, k) && !Served(s.jobs[k]) && (Asks(s.jobs[k]) ==> AskersTo(s, i) >= s.avail)
    requires s.jobs[k].pages[tick % MAXPROCPAGES] == 0
    ensures Clock(s, tick).jobs[k].pages[tick % MAXPROCPAGES] == -1
  {
    ClockPages(s, tick);
  }
}
