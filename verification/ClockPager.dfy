/** What the clock hand does to each job, and why some job always computes again. */
module ClockPaging {
  import opened Machine
  import opened Sums
  import opened Simulation
  import opened Invariants
  import opened Effects
  import opened Transparency
  import opened Iteration
  import opened ClockHand

  // ---------- It only makes calls ----------

  lemma ClockSlotKeeps(P: State -> bool, s: State, i: nat, tick: nat)
    requires WellFormed(s) && P(s) && i < |s.slots|
    requires forall o: Op | IsCall(o) :: Keeps(P, o)
    ensures P(ClockSlot(s, i, tick))
  {
    if Occupied(s, i) {
      var page := CurrentPage(s.jobs[s.slots[i].value]);
      var o := In(i, page);
      assert Keeps(P, o) && Keeps(P, Out(i, Hand(tick)));
      assert P(Do(s, o));
      assert P(Do(Do(s, o), Out(i, Hand(tick))));
    }
  }

  /** The share of slot `i` leads from `P` of `i` shares to `P` of `i + 1`. */
  ghost predicate ShareMoves(P: (nat, State) -> bool, i: nat, tick: nat) {
    forall u | P(i, u) :: WellFormed(u) && i < |u.slots| && P(i + 1, ClockSlot(u, i, tick))
  }

  lemma {:induction false} ClockToMoves(P: (nat, State) -> bool, s: State, n: nat, tick: nat)
    requires WellFormed(s) && P(0, s) && n <= |s.slots|
    requires forall i | 0 <= i < n :: ShareMoves(P, i, tick)
    ensures P(n, ClockTo(s, n, tick))
  {
    if n > 0 {
      ClockToMoves(P, s, n - 1, tick);
      assert ShareMoves(P, n - 1, tick);
    }
  }

  ghost function WithSlots(P: State -> bool, slots: nat): (nat, State) -> bool {
    (n: nat, t: State) => WellFormed(t) && |t.slots| == slots && P(t)
  }

  lemma ShareKeeps(P: State -> bool, slots: nat, i: nat, tick: nat)
    requires i < slots && forall o: Op | IsCall(o) :: Keeps(P, o)
    ensures ShareMoves(WithSlots(P, slots), i, tick)
  {
    forall u | WithSlots(P, slots)(i, u)
      ensures WithSlots(P, slots)(i + 1, ClockSlot(u, i, tick))
    {
      ClockSlotKeeps(P, u, i, tick);
    }
  }

  lemma ClockToKeeps(P: State -> bool, s: State, n: nat, tick: nat)
    requires WellFormed(s) && P(s) && n <= |s.slots|
    requires forall o: Op | IsCall(o) :: Keeps(P, o)
    ensures P(ClockTo(s, n, tick))
  {
    forall i: nat | i < n
      ensures ShareMoves(WithSlots(P, |s.slots|), i, tick)
    {
      ShareKeeps(P, |s.slots|, i, tick);
    }
    ClockToMoves(WithSlots(P, |s.slots|), s, n, tick);
  }

  lemma ClockKeepsInv(s: State, tick: nat)
    requires Inv(s)
    ensures Inv(Clock(s, tick))
  {
    EveryOpKeepsInv();
    ClockToKeeps(Inv, s, |s.slots|, tick);
  }

  ghost function SameWorkAs(s: State): State -> bool {
    t => WellFormed(t) && SameWork(s, t)
  }

  lemma CallDoesNoWork(s: State, t: State, o: Op)
    requires IsCall(o) && WellFormed(t) && SameWork(s, t)
    ensures SameWork(s, Do(t, o))
  {
  }

  lemma CallKeepsWork(s: State, o: Op)
    requires IsCall(o)
    ensures Keeps(SameWorkAs(s), o)
  {
    forall t | SameWorkAs(s)(t)
      ensures SameWorkAs(s)(Do(t, o))
    {
      CallDoesNoWork(s, t, o);
    }
  }

  lemma ClockDoesNoWork(s: State, tick: nat)
    requires WellFormed(s)
    ensures Computes(Clock(s, tick).jobs) == Computes(s.jobs)
  {
    forall o: Op | IsCall(o)
      ensures Keeps(SameWorkAs(s), o)
    {
      CallKeepsWork(s, o);
    }
    ClockToKeeps(SameWorkAs(s), s, |s.slots|, tick);
    SameWorkComputes(s, Clock(s, tick));
  }

  /** A tick keeps the invariant; it never takes computation back, and adds some unless it is stalled. */
  lemma ClockTickComputes(s: State, tick: nat)
    requires Inv(s)
    ensures Inv(ClockTick(s, tick))
    ensures Compute(s) <= Compute(ClockTick(s, tick))
    ensures !Stalled(s) ==> Compute(s) < Compute(ClockTick(s, tick))
  {
    TickKeepsInv(s, []);
    TickComputes(s, []);
    ClockKeepsInv(Tick(s), tick);
    ClockDoesNoWork(Tick(s), tick);
  }

  // ---------- Its effect on each job ----------

  /** The resident page under the hand starts on its way out. */
  function Evict(pages: seq<int>, hand: nat): (r: seq<int>)
    requires hand < |pages|
    ensures |r| == |pages|
  {
    if pages[hand] == 0 then pages[hand := -1] else pages
  }

  /** What an invocation can do to a running job. */
  ghost predicate Clocked(j: Job, j': Job, tick: nat)
    requires ValidJob(j)
  {
    if Timer(j) >= 0 then j' == j
    else
      || (Timer(j) == OUT && j' == j.(pages := j.pages[CurrentPage(j) := PAGEWAIT]))
      || j' == j.(pages := Evict(j.pages, Hand(tick)))
  }

  /** Some running job has its page, or has it on its way in. */
  ghost predicate Arriving(s: State)
    requires WellFormed(s)
  {
    exists k :: 0 <= k < |s.jobs| && Running(s, k) && Timer(s.jobs[k]) >= 0
  }

  /** What happens in one slot whose job cannot run. */
  lemma ClockSlotEffect(s: State, i: nat, k: nat, tick: nat)
    requires Inv(s) && Holds(s, i, k)
    ensures var t := ClockSlot(s, i, tick); var j := s.jobs[k];
      && t.slots == s.slots && t.queueend == s.queueend
      && t.jobs == s.jobs[k := t.jobs[k]]
      && Clocked(j, t.jobs[k], tick)
      && (Timer(j) == OUT && s.avail > 0 ==> Timer(t.jobs[k]) == PAGEWAIT)
      && (t.avail == s.avail || Timer(t.jobs[k]) == PAGEWAIT)
  {
    assert Occupied(s, i);
    var j := s.jobs[k];
    var page := CurrentPage(j);
    assert PageOf(s, i, page) == Timer(j);
    assert s.jobs[k := j] == s.jobs;
  }

  /** After the first `n` slots' shares: the jobs, */
  ghost predicate ClockedTo(s: State, n: nat, tick: nat, t: State)
    requires WellFormed(s) && WellFormed(t) && |t.slots| == |s.slots| && |t.jobs| == |s.jobs|
  {
    && t.slots == s.slots && t.queueend == s.queueend
    && (forall k | 0 <= k < |s.jobs| ::
          if HeldBelow(s, n, k) then Clocked(s.jobs[k], t.jobs[k], tick) else t.jobs[k] == s.jobs[k])
  }

  /** and the frames. */
  ghost predicate FramesTaken(s: State, n: nat, t: State)
    requires WellFormed(s) && WellFormed(t) && |t.slots| == |s.slots| && |t.jobs| == |s.jobs|
  {
    && (t.avail == s.avail || Arriving(t))
    && (forall k | 0 <= k < |s.jobs| && HeldBelow(s, n, k) && Timer(s.jobs[k]) == OUT && s.avail > 0 :: Arriving(t))
  }

  /** A slot's share leaves the arriving jobs of other slots, and its own, arriving. */
  lemma ArrivingStays(s: State, i: nat, k: nat, tick: nat)
    requires Inv(s) && Holds(s, i, k) && Arriving(s)
    ensures Arriving(ClockSlot(s, i, tick))
  {
    ClockSlotEffect(s, i, k, tick);
    var t := ClockSlot(s, i, tick);
    var m :| 0 <= m < |s.jobs| && Running(s, m) && Timer(s.jobs[m]) >= 0;
    var n :| Holds(s, n, m);
    NowArriving(t, n, m);
  }

  lemma NowArriving(t: State, i: nat, k: nat)
    requires WellFormed(t) && Holds(t, i, k) && Timer(t.jobs[k]) >= 0
    ensures Arriving(t)
  {
    assert Running(t, k);
  }

  lemma ClockedNext(s: State, n: nat, tick: nat, u: State)
    requires Inv(s) && Inv(u) && |u.slots| == |s.slots| && |u.jobs| == |s.jobs|
    requires n < |s.slots| && ClockedTo(s, n, tick, u)
    ensures ClockedTo(s, n + 1, tick, ClockSlot(u, n, tick))
  {
    HeldBelowNext(s, n);
    if s.slots[n].Some? {
      var k := s.slots[n].value;
      assert Holds(u, n, k);
      ClockSlotEffect(u, n, k, tick);
      OneMoreClocked(s, n, tick, u, ClockSlot(u, n, tick), k);
    } else {
      assert ClockSlot(u, n, tick) == u;
    }
  }

  lemma OneMoreClocked(s: State, n: nat, tick: nat, u: State, t: State, k: nat)
    requires WellFormed(s) && WellFormed(u) && |u.slots| == |s.slots| && |u.jobs| == |s.jobs|
    requires WellFormed(t) && |t.slots| == |s.slots| && |t.jobs| == |s.jobs|
    requires ClockedTo(s, n, tick, u) && k < |s.jobs| && !HeldBelow(s, n, k)
    requires forall m | 0 <= m < |s.jobs| :: HeldBelow(s, n + 1, m) <==> HeldBelow(s, n, m) || m == k
    requires t.slots == u.slots && t.queueend == u.queueend
    requires t.jobs == u.jobs[k := t.jobs[k]] && Clocked(u.jobs[k], t.jobs[k], tick)
    ensures ClockedTo(s, n + 1, tick, t)
  {
  }

  lemma FramesTakenNext(s: State, n: nat, tick: nat, u: State)
    requires Inv(s) && Inv(u) && |u.slots| == |s.slots| && |u.jobs| == |s.jobs|
    requires n < |s.slots| && ClockedTo(s, n, tick, u) && FramesTaken(s, n, u)
    ensures FramesTaken(s, n + 1, ClockSlot(u, n, tick))
  {
    HeldBelowNext(s, n);
    if s.slots[n].Some? {
      assert Holds(u, n, s.slots[n].value);
      ArrivingGrows(u, n, s.slots[n].value, tick);
    } else {
      assert ClockSlot(u, n, tick) == u;
    }
  }

  lemma ArrivingGrows(s: State, i: nat, k: nat, tick: nat)
    requires Inv(s) && Holds(s, i, k)
    ensures Arriving(s) ==> Arriving(ClockSlot(s, i, tick))
    ensures ClockSlot(s, i, tick).avail != s.avail ==> Arriving(ClockSlot(s, i, tick))
    ensures Timer(s.jobs[k]) == OUT && s.avail > 0 ==> Arriving(ClockSlot(s, i, tick))
  {
    var t := ClockSlot(s, i, tick);
    ClockSlotEffect(s, i, k, tick);
    if Arriving(s) {
      ArrivingStays(s, i, k, tick);
    } else if Timer(t.jobs[k]) == PAGEWAIT {
      NowArriving(t, i, k);
    }
  }

  lemma ClockPassBegin(s: State, tick: nat)
    requires WellFormed(s)
    ensures ClockedTo(s, 0, tick, s) && FramesTaken(s, 0, s)
  {
  }

  ghost predicate ClockedSoFar(s: State, n: nat, tick: nat, t: State)
    requires WellFormed(s)
  {
    && Inv(t) && |t.slots| == |s.slots| && |t.jobs| == |s.jobs|
    && ClockedTo(s, n, tick, t) && FramesTaken(s, n, t)
  }

  ghost function ClockedBy(s: State, tick: nat): (nat, State) -> bool
    requires WellFormed(s)
  {
    (n: nat, t: State) => ClockedSoFar(s, n, tick, t)
  }

  lemma ShareKeepsInv(s: State, i: nat, tick: nat)
    requires Inv(s) && i < |s.slots|
    ensures Inv(ClockSlot(s, i, tick))
  {
    EveryOpKeepsInv();
    ClockSlotKeeps(Inv, s, i, tick);
  }

  lemma ClockShare(s: State, n: nat, tick: nat, u: State)
    requires Inv(s) && n < |s.slots| && ClockedSoFar(s, n, tick, u)
    ensures ClockedSoFar(s, n + 1, tick, ClockSlot(u, n, tick))
  {
    ShareKeepsInv(u, n, tick);
    ClockedNext(s, n, tick, u);
    FramesTakenNext(s, n, tick, u);
  }

  lemma ClockedByIs(s: State, n: nat, tick: nat, t: State)
    requires WellFormed(s)
    ensures ClockedBy(s, tick)(n, t) == ClockedSoFar(s, n, tick, t)
  {
  }

  lemma ClockedIsWellFormed(s: State, n: nat, tick: nat, t: State)
    requires WellFormed(s) && ClockedBy(s, tick)(n, t)
    ensures WellFormed(t) && |t.slots| == |s.slots|
  {
  }

  lemma ClockShareBy(s: State, n: nat, tick: nat, u: State)
    requires Inv(s) && n < |s.slots| && WellFormed(u) && n < |u.slots| && ClockedSoFar(s, n, tick, u)
    ensures ClockedBy(s, tick)(n + 1, ClockSlot(u, n, tick))
  {
    ClockShare(s, n, tick, u);
  }

  lemma ClockMoves(s: State, n: nat, tick: nat)
    requires Inv(s) && n < |s.slots|
    ensures ShareMoves(ClockedBy(s, tick), n, tick)
  {
    var P := ClockedBy(s, tick);
    forall u | P(n, u)
      ensures WellFormed(u) && n < |u.slots| && P(n + 1, ClockSlot(u, n, tick))
    {
      ClockedByIs(s, n, tick, u);
      ClockedIsWellFormed(s, n, tick, u);
      ClockShareBy(s, n, tick, u);
    }
  }

  lemma ClockPass(s: State, n: nat, tick: nat)
    requires Inv(s) && n <= |s.slots|
    ensures Inv(ClockTo(s, n, tick))
    ensures ClockedTo(s, n, tick, ClockTo(s, n, tick)) && FramesTaken(s, n, ClockTo(s, n, tick))
  {
    ClockPassBegin(s, tick);
    forall i: nat | i < n
      ensures ShareMoves(ClockedBy(s, tick), i, tick)
    {
      ClockMoves(s, i, tick);
    }
    ClockToMoves(ClockedBy(s, tick), s, n, tick);
  }

  /** The whole invocation, job by job; a job whose page is out gets a frame going spare, or another one does. */
  lemma ClockEffect(s: State, tick: nat)
    requires Inv(s)
    ensures var t := Clock(s, tick);
      && Inv(t) && t.slots == s.slots
      && (forall k | 0 <= k < |s.jobs| ::
            if Running(s, k) then Clocked(s.jobs[k], t.jobs[k], tick) else t.jobs[k] == s.jobs[k])
      && (forall k | 0 <= k < |s.jobs| && Running(s, k) && Timer(s.jobs[k]) == OUT && s.avail > 0 :: Arriving(t))
  {
    ClockPass(s, |s.slots|, tick);
    forall k | 0 <= k < |s.jobs|
      ensures HeldBelow(s, |s.slots|, k) == Running(s, k)
    {
      if Running(s, k) {
        var i :| Holds(s, i, k);
      }
    }
  }

  // ---------- Progress ----------

  /** The state after `n` ticks from time `tick`. */
  ghost function After(s: State, tick: nat, n: nat): State {
    Iterate(ClockNext(), (s, tick), n).0
  }

  lemma AfterNext(s: State, tick: nat, n: nat)
    requires WellFormed(s)
    ensures After(s, tick, n + 1) == After(ClockTick(s, tick), tick + 1, n)
    ensures After(s, tick, 0) == s
  {
  }

  ghost function AtLeast(v: int): ((State, nat)) -> bool {
    (c: (State, nat)) => Inv(c.0) && Compute(c.0) >= v
  }

  lemma NextKeepsAtLeast(v: int)
    ensures forall c | AtLeast(v)(c) :: AtLeast(v)(ClockNext()(c))
  {
    forall c | AtLeast(v)(c)
      ensures AtLeast(v)(ClockNext()(c))
    {
      ClockTickComputes(c.0, c.1);
    }
  }

  lemma ComputeStays(s: State, tick: nat, n: nat)
    requires Inv(s)
    ensures Inv(After(s, tick, n)) && Compute(After(s, tick, n)) >= Compute(s)
  {
    NextKeepsAtLeast(Compute(s));
    IterateKeeps(ClockNext(), AtLeast(Compute(s)), (s, tick), n);
    assert AtLeast(Compute(s))(Iterate(ClockNext(), (s, tick), n));
  }

  /** Within `n` ticks some job computes. */
  ghost predicate ComputesBy(s: State, tick: nat, n: nat) {
    Compute(After(s, tick, n)) > Compute(s)
  }

  lemma ComputesLater(s: State, tick: nat, m: nat, n: nat)
    requires Inv(s) && m <= n && ComputesBy(s, tick, m)
    ensures ComputesBy(s, tick, n)
  {
    ComputeStays(s, tick, m);
    var P := AtLeast(Compute(s) + 1);
    NextKeepsAtLeast(Compute(s) + 1);
    IterateKeepsOn(ClockNext(), P, (s, tick), m, n);
  }

  /** One tick: either something computes at once, or it is enough that something computes after it. */
  lemma OneTick(s: State, tick: nat, n: nat)
    requires Inv(s)
    requires Stalled(s) ==> ComputesBy(ClockTick(s, tick), tick + 1, n)
    ensures ComputesBy(s, tick, n + 1)
  {
    AfterNext(s, tick, n);
    ClockTickComputes(s, tick);
    ComputeStays(ClockTick(s, tick), tick + 1, n);
  }

  /** A stalled tick seen from one running job. */
  lemma StalledClockTick(s: State, tick: nat, i: int, k: nat)
    requires Inv(s) && Stalled(s) && Holds(s, i, k)
    ensures Inv(Tick(s)) && Holds(Tick(s), i, k) && Tick(s).jobs[k] == Waited(s.jobs[k])
    ensures var t := ClockTick(s, tick);
      Inv(t) && Holds(t, i, k) && Clocked(Waited(s.jobs[k]), t.jobs[k], tick)
  {
    StalledTick(s);
    assert Running(s, k);
    assert Holds(Tick(s), i, k);
    assert Running(Tick(s), k);
    ClockEffect(Tick(s), tick);
  }

  /** A page that is in or coming in is not taken away before its job has computed. */
  lemma {:induction false} ArrivalComputes(s: State, tick: nat, i: int, k: nat)
    requires Inv(s) && Holds(s, i, k) && Timer(s.jobs[k]) >= 0
    ensures ComputesBy(s, tick, Timer(s.jobs[k]) + 1)
    decreases Timer(s.jobs[k])
  {
    if Stalled(s) {
      assert Running(s, k);
      StalledClockTick(s, tick, i, k);
      ArrivalComputes(ClockTick(s, tick), tick + 1, i, k);
    }
    OneTick(s, tick, Timer(s.jobs[k]));
  }

  lemma ArrivingComputes(s: State, tick: nat)
    requires Inv(s) && Arriving(s)
    ensures ComputesBy(s, tick, PAGEWAIT + 1)
  {
    var k :| 0 <= k < |s.jobs| && Running(s, k) && Timer(s.jobs[k]) >= 0;
    var i :| Holds(s, i, k);
    ArrivalComputes(s, tick, i, k);
    ComputesLater(s, tick, Timer(s.jobs[k]) + 1, PAGEWAIT + 1);
  }

  /** When a frame is spare and a running job's page is out, some page starts on its way in. */
  lemma SpareFrameComputes(s: State, tick: nat, i: int, k: nat)
    requires Inv(s) && Stalled(s) && Holds(s, i, k)
    requires Timer(Tick(s).jobs[k]) == OUT && Tick(s).avail > 0
    ensures ComputesBy(s, tick, PAGEWAIT + 2)
  {
    StalledClockTick(s, tick, i, k);
    assert Running(Tick(s), k);
    ClockEffect(Tick(s), tick);
    ArrivingComputes(ClockTick(s, tick), tick + 1);
    OneTick(s, tick, PAGEWAIT + 1);
  }

  /** A frame whose page-out ends in this tick is spare afterwards. */
  lemma ExpiryFreesFrame(s: State, i: int, k: nat, p: nat)
    requires Inv(s) && Stalled(s) && Holds(s, i, k) && p < MAXPROCPAGES
    requires s.jobs[k].pages[p] == -PAGEWAIT
    ensures Tick(s).avail > 0
  {
    StalledStep(s);
    assert Running(s, k);
    AgingFreesFrame(AllStep(s), i, k, p);
  }

  /** The last tick of a page-out, when every running job is blocked. */
  lemma LastLeavingTick(s: State, tick: nat, i: int, k: nat)
    requires Inv(s) && Stalled(s) && Holds(s, i, k) && Timer(s.jobs[k]) == -PAGEWAIT
    ensures ComputesBy(s, tick, PAGEWAIT + 2)
  {
    StalledClockTick(s, tick, i, k);
    ExpiryFreesFrame(s, i, k, CurrentPage(s.jobs[k]));
    SpareFrameComputes(s, tick, i, k);
  }

  /** An earlier tick of it: the pager leaves the page alone. */
  lemma LeavingTick(s: State, tick: nat, i: int, k: nat)
    requires Inv(s) && Stalled(s) && Holds(s, i, k) && -PAGEWAIT < Timer(s.jobs[k]) < 0
    ensures var t := ClockTick(s, tick); Inv(t) && Holds(t, i, k) && Timer(t.jobs[k]) == Timer(s.jobs[k]) - 1
  {
    StalledClockTick(s, tick, i, k);
  }

  /** A page on its way out becomes free within PAGEWAIT ticks, and is then called in again. */
  lemma {:induction false} LeavingComputes(s: State, tick: nat, i: int, k: nat, wait: nat)
    requires Inv(s) && Holds(s, i, k) && OUT < Timer(s.jobs[k]) < 0 && wait == Timer(s.jobs[k]) - OUT
    ensures ComputesBy(s, tick, wait + PAGEWAIT + 1)
    decreases wait
  {
    if Stalled(s) && wait == 1 {
      LastLeavingTick(s, tick, i, k);
    } else {
      if Stalled(s) {
        LeavingTick(s, tick, i, k);
        LeavingComputes(ClockTick(s, tick), tick + 1, i, k, wait - 1);
      }
      OneTick(s, tick, wait + PAGEWAIT);
    }
  }

  /** Ticks until the hand is over `page`. */
  function HandWait(page: nat, tick: nat): (r: nat)
    requires page < MAXPROCPAGES
    ensures r < MAXPROCPAGES
    ensures r == 0 <==> Hand(tick) == page
  {
    (page + MAXPROCPAGES - tick % MAXPROCPAGES) % MAXPROCPAGES
  }

  lemma HandMoves(page: nat, tick: nat)
    requires page < MAXPROCPAGES && Hand(tick) != page
    ensures HandWait(page, tick + 1) == HandWait(page, tick) - 1
  {
  }

  /** Ticks until the frame of a page with timer `v` is spare, if its job stays blocked. */
  function FrameWait(v: int, page: nat, tick: nat): (r: nat)
    requires page < MAXPROCPAGES && v >= -PAGEWAIT
  {
    if v > 0 then v + MAXPROCPAGES + PAGEWAIT
    else if v == 0 then HandWait(page, tick) + 1 + PAGEWAIT
    else v - OUT
  }

  /** Aging and the hand together bring the frame one tick closer. */
  lemma FrameComesCloser(v: int, page: nat, tick: nat)
    requires page < MAXPROCPAGES && -PAGEWAIT < v
    ensures var aged := AgePage(v); var next := if aged == 0 && Hand(tick) == page then -1 else aged;
      next >= -PAGEWAIT && FrameWait(next, page, tick + 1) < FrameWait(v, page, tick)
  {
    if Hand(tick) != page {
      HandMoves(page, tick);
    }
  }

  /** Every running job's page is out. */
  ghost predicate AllPagesOut(s: State)
    requires WellFormed(s)
  {
    forall k | 0 <= k < |s.jobs| && Running(s, k) :: Timer(s.jobs[k]) == OUT
  }

  lemma StaysOut(s: State, tick: nat)
    requires Inv(s) && AllPagesOut(s) && !Arriving(ClockTick(s, tick))
    ensures Inv(ClockTick(s, tick)) && AllPagesOut(ClockTick(s, tick))
  {
    var t := ClockTick(s, tick);
    StalledTick(s);
    ClockEffect(Tick(s), tick);
    forall k | 0 <= k < |t.jobs| && Running(t, k)
      ensures Timer(t.jobs[k]) == OUT
    {
      var i :| Holds(t, i, k);
      StaysOutThere(s, tick, i, k);
    }
  }

  lemma InIsArriving(t: State, i: int, k: nat)
    requires WellFormed(t) && Holds(t, i, k)
    ensures Timer(t.jobs[k]) >= 0 ==> Arriving(t)
  {
    assert Running(t, k);
  }

  lemma OutOrCalled(j: Job, j': Job, tick: nat)
    requires ValidJob(j) && ValidJob(j') && Timer(j) == OUT && Clocked(Waited(j), j', tick)
    ensures Timer(j') == OUT || Timer(j') == PAGEWAIT
  {
  }

  lemma StaysOutThere(s: State, tick: nat, i: int, k: nat)
    requires Inv(s) && AllPagesOut(s) && !Arriving(ClockTick(s, tick)) && Holds(s, i, k)
    ensures Timer(ClockTick(s, tick).jobs[k]) == OUT
  {
    assert Running(s, k);
    StalledClockTick(s, tick, i, k);
    OutOrCalled(s.jobs[k], ClockTick(s, tick).jobs[k], tick);
    InIsArriving(ClockTick(s, tick), i, k);
  }

  /** One tick closer to the spare frame: either a page has been called in, or the wait is shorter. */
  lemma FrameCloser(s: State, tick: nat, i: int, k: nat, p: nat)
    requires Inv(s) && AllPagesOut(s) && Holds(s, i, k) && p < MAXPROCPAGES && -PAGEWAIT < s.jobs[k].pages[p]
    ensures var t := ClockTick(s, tick);
      && Inv(t) && Holds(t, i, k) && Stalled(s)
      && (Arriving(t) || (AllPagesOut(t) && Held(t.jobs[k].pages[p])
                          && FrameWait(t.jobs[k].pages[p], p, tick + 1) < FrameWait(s.jobs[k].pages[p], p, tick)))
  {
    assert Running(s, k);
    StalledClockTick(s, tick, i, k);
    FrameComesCloser(s.jobs[k].pages[p], p, tick);
    if !Arriving(ClockTick(s, tick)) {
      StaysOut(s, tick);
      assert Running(ClockTick(s, tick), k);
    }
  }

  lemma LastFrameTick(s: State, tick: nat, i: int, k: nat, p: nat)
    requires Inv(s) && AllPagesOut(s) && Holds(s, i, k) && p < MAXPROCPAGES && s.jobs[k].pages[p] == -PAGEWAIT
    ensures ComputesBy(s, tick, PAGEWAIT + 2)
  {
    assert Running(s, k);
    StalledClockTick(s, tick, i, k);
    ExpiryFreesFrame(s, i, k, p);
    SpareFrameComputes(s, tick, i, k);
  }

  lemma FrameTick(s: State, tick: nat, wait: nat)
    requires Inv(s) && AllPagesOut(s) && Inv(ClockTick(s, tick))
    requires !Arriving(ClockTick(s, tick)) ==> ComputesBy(ClockTick(s, tick), tick + 1, wait + PAGEWAIT)
    requires wait > 0
    ensures ComputesBy(s, tick, wait + PAGEWAIT + 1)
  {
    var t := ClockTick(s, tick);
    if Arriving(t) {
      ArrivingComputes(t, tick + 1);
      ComputesLater(t, tick + 1, PAGEWAIT + 1, wait + PAGEWAIT);
    }
    OneTick(s, tick, wait + PAGEWAIT);
  }

  /** The frame of another page becomes spare, and a page starts on its way in. */
  lemma {:induction false} FrameComputes(s: State, tick: nat, i: int, k: nat, p: nat, wait: nat)
    requires FrameIsDue(s, tick, i, k, p, wait)
    ensures ComputesBy(s, tick, wait + PAGEWAIT + 1)
    decreases wait
  {
    if s.jobs[k].pages[p] == -PAGEWAIT {
      LastFrameTick(s, tick, i, k, p);
      ComputesLater(s, tick, PAGEWAIT + 2, wait + PAGEWAIT + 1);
    } else {
      FrameIsCloser(s, tick, i, k, p, wait);
      if !Arriving(ClockTick(s, tick)) {
        FrameComputes(ClockTick(s, tick), tick + 1, i, k, p, wait - 1);
      }
      FrameTick(s, tick, wait);
    }
  }

  /** Every running job is blocked, and a frame of job `k` will be spare within `wait` ticks. */
  ghost predicate FrameIsDue(s: State, tick: nat, i: int, k: nat, p: nat, wait: nat) {
    && Inv(s) && AllPagesOut(s) && Holds(s, i, k) && p < MAXPROCPAGES && Held(s.jobs[k].pages[p])
    && FrameWait(s.jobs[k].pages[p], p, tick) <= wait
  }

  lemma FrameIsCloser(s: State, tick: nat, i: int, k: nat, p: nat, wait: nat)
    requires FrameIsDue(s, tick, i, k, p, wait) && s.jobs[k].pages[p] != -PAGEWAIT
    ensures wait > 0 && Inv(ClockTick(s, tick))
    ensures Arriving(ClockTick(s, tick)) || FrameIsDue(ClockTick(s, tick), tick + 1, i, k, p, wait - 1)
  {
    FrameCloser(s, tick, i, k, p);
  }

  /** With no frame available, some running job owns one. */
  lemma SomeFrame(s: State) returns (i: int, k: nat, p: nat)
    requires Inv(s) && s.avail == 0
    ensures k < |s.jobs| && Holds(s, i, k) && p < MAXPROCPAGES && Held(s.jobs[k].pages[p])
  {
    k := SumPositive(Frames(s.jobs), |s.jobs|);
    p := HeldPositive(s.jobs[k].pages, |s.jobs[k].pages|);
    assert s.jobs[k].pages != AllOut();
    i :| Holds(s, i, k);
  }

  lemma {:induction false} HeldPositive(pages: seq<int>, n: nat) returns (p: nat)
    requires n <= |pages| && HeldTo(pages, n) > 0
    ensures p < n && Held(pages[p])
  {
    if Held(pages[n - 1]) {
      p := n - 1;
    } else {
      p := HeldPositive(pages, n - 1);
    }
  }

  /** Ticks within which some job computes, from any state with an occupied slot. */
  const PROGRESS := 3 * PAGEWAIT + MAXPROCPAGES + 2

  lemma AllOutComputes(s: State, tick: nat, i: int, k: nat)
    requires Inv(s) && AllPagesOut(s) && Holds(s, i, k)
    ensures ComputesBy(s, tick, PROGRESS)
  {
    assert Running(s, k);
    StalledClockTick(s, tick, i, k);
    if Tick(s).avail > 0 {
      SpareFrameComputes(s, tick, i, k);
      ComputesLater(s, tick, PAGEWAIT + 2, PROGRESS);
    } else {
      var t := ClockTick(s, tick);
      if Arriving(t) {
        ArrivingComputes(t, tick + 1);
        ComputesLater(t, tick + 1, PAGEWAIT + 1, PROGRESS - 1);
      } else {
        StaysOut(s, tick);
        OwnedFrameComputes(s, tick);
      }
      OneTick(s, tick, PROGRESS - 1);
    }
  }

  lemma OwnedFrame(s: State, tick: nat) returns (i: int, k: nat, p: nat)
    requires Inv(s) && Stalled(s) && Tick(s).avail == 0
    ensures Holds(s, i, k) && k < |s.jobs| && p < MAXPROCPAGES && Held(Waited(s.jobs[k]).pages[p])
  {
    StalledTick(s);
    i, k, p := SomeFrame(Tick(s));
    assert Holds(s, i, k);
    assert Running(s, k);
  }

  lemma OwnedFrameComputes(s: State, tick: nat)
    requires Inv(s) && Stalled(s) && Tick(s).avail == 0 && AllPagesOut(ClockTick(s, tick))
    ensures ComputesBy(ClockTick(s, tick), tick + 1, PROGRESS - 1)
  {
    var i, k, p := OwnedFrame(s, tick);
    StalledClockTick(s, tick, i, k);
    FrameComputes(ClockTick(s, tick), tick + 1, i, k, p, 2 * PAGEWAIT + MAXPROCPAGES);
  }

  /** Progress: from every state that satisfies the invariant, unless all is done, some job computes. */
  lemma ClockProgress(s: State, tick: nat)
    requires Inv(s) && !AllDone(s)
    ensures ComputesBy(s, tick, PROGRESS)
  {
    var i :| 0 <= i < |s.slots| && Occupied(s, i);
    var k := s.slots[i].value;
    assert Holds(s, i, k);
    if Arriving(s) {
      ArrivingComputes(s, tick);
      ComputesLater(s, tick, PAGEWAIT + 1, PROGRESS);
    } else if AllPagesOut(s) {
      AllOutComputes(s, tick, i, k);
    } else {
      var m :| 0 <= m < |s.jobs| && Running(s, m) && Timer(s.jobs[m]) != OUT;
      var j :| Holds(s, j, m);
      LeavingComputes(s, tick, j, m, Timer(s.jobs[m]) - OUT);
      ComputesLater(s, tick, Timer(s.jobs[m]) - OUT + PAGEWAIT + 1, PROGRESS);
    }
  }
}
