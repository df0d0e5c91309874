/** How long swaps take, and how many page-ins can start in a window of ticks, whatever the pager does. */
module SwapTiming {
  import opened Machine
  import opened Sums
  import opened Simulation
  import opened Invariants
  import opened Effects
  import opened Transparency

  // ---------- Latency ----------

  /** The pager cannot touch a page that is on its way in or out. */
  ghost predicate Moving(v: int) {
    v > 0 || -PAGEWAIT <= v < 0
  }

  /** Slot `i` holds job `k`, whose page `p` has timer `v`. */
  ghost predicate PageIs(t: State, i: int, k: nat, p: nat, v: int) {
    WellFormed(t) && Holds(t, i, k) && p < MAXPROCPAGES && t.jobs[k].pages[p] == v
  }

  ghost function PageStays(i: int, k: nat, p: nat, v: int): State -> bool {
    t => PageIs(t, i, k, p, v)
  }

  lemma CallKeepsMovingPage(i: int, k: nat, p: nat, v: int, o: Op)
    requires Moving(v) && IsCall(o)
    ensures Keeps(PageStays(i, k, p, v), o)
  {
  }

  /** One machine turn moves the timer of a running job's page by one. */
  lemma TickAgesPage(s: State, i: int, k: nat, p: nat, v: int)
    requires Inv(s) && PageIs(s, i, k, p, v) && Tick(s).jobs[k].active
    ensures PageIs(Tick(s), i, k, p, AgePage(v))
  {
    TickOfJob(s, k);
    TickKeepsSlot(s, i, k);
    assert Running(s, k);
    assert Running(AllStep(s), k);
  }

  lemma TickMovesPage(s: State, calls: seq<Op>, i: int, k: nat, p: nat, v: int)
    requires Inv(s) && IsCalls(calls) && PageIs(s, i, k, p, v)
    requires Moving(v) && Moving(v - 1) && Tick(s).jobs[k].active
    ensures PageIs(TickWith(s, calls), i, k, p, v - 1)
  {
    TickAgesPage(s, i, k, p, v);
    forall c | 0 <= c < |calls|
      ensures Keeps(PageStays(i, k, p, v - 1), calls[c])
    {
      CallKeepsMovingPage(i, k, p, v - 1, calls[c]);
    }
    DoToKeeps(PageStays(i, k, p, v - 1), Tick(s), calls, |calls|);
  }

  /** Job `k` is not unloaded in the first `n` ticks. */
  ghost predicate StaysLoaded(s: State, calls: seq<seq<Op>>, n: nat, k: nat)
    requires WellFormed(s) && n <= |calls| && k < |s.jobs|
  {
    forall m | 0 <= m < n :: Tick(Run(s, calls, m)).jobs[k].active
  }

  /**
   Swap latency: a page that is moving keeps moving by one a tick, whatever the pager calls.
   From PAGEWAIT it is first in after PAGEWAIT ticks; from -1 it is first out, and its frame
   first free, after PAGEWAIT ticks.
   */
  lemma SwapLatency(s: State, calls: seq<seq<Op>>, n: nat, i: int, k: nat, p: nat, v: int)
    requires Inv(s) && n < |calls| && PagerCalls(calls)
    requires PageIs(s, i, k, p, v) && Moving(v) && Moving(v - n)
    requires StaysLoaded(s, calls, n + 1, k)
    requires v > 0 ==> v - n > 0
    ensures PageIs(Run(s, calls, n), i, k, p, v - n)
    ensures PageIs(Tick(Run(s, calls, n)), i, k, p, v - n - 1)
  {
    LoadedPart(s, calls, n, n + 1, k);
    RunMovesPage(s, calls, n, i, k, p, v);
    RunKeepsInv(s, calls, n);
    TickAgesPage(Run(s, calls, n), i, k, p, v - n);
  }

  lemma LoadedPart(s: State, calls: seq<seq<Op>>, m: nat, n: nat, k: nat)
    requires WellFormed(s) && m <= n <= |calls| && k < |s.jobs| && StaysLoaded(s, calls, n, k)
    ensures StaysLoaded(s, calls, m, k)
  {
  }

  /** A page-in lasts exactly PAGEWAIT ticks. */
  lemma SwapInTakes(s: State, calls: seq<seq<Op>>, i: int, k: nat, p: nat, n: nat)
    requires Inv(s) && n < PAGEWAIT <= |calls| && PagerCalls(calls) && PageIs(s, i, k, p, PAGEWAIT)
    requires StaysLoaded(s, calls, PAGEWAIT, k)
    ensures PageIs(Run(s, calls, n), i, k, p, PAGEWAIT - n)
    ensures n == PAGEWAIT - 1 ==> PageIs(Tick(Run(s, calls, n)), i, k, p, 0)
  {
    LoadedPart(s, calls, n + 1, PAGEWAIT, k);
    SwapLatency(s, calls, n, i, k, p, PAGEWAIT);
  }

  /** A page that leaves keeps its frame for exactly PAGEWAIT ticks; in the last of them `allage` frees a frame. */
  lemma SwapOutTakes(s: State, calls: seq<seq<Op>>, i: int, k: nat, p: nat, n: nat)
    requires Inv(s) && n < PAGEWAIT <= |calls| && PagerCalls(calls) && PageIs(s, i, k, p, -1)
    requires StaysLoaded(s, calls, PAGEWAIT, k)
    ensures PageIs(Run(s, calls, n), i, k, p, -1 - n) && Held(-1 - n)
    ensures var u := AllStep(Run(s, calls, n));
      n == PAGEWAIT - 1 ==> PageIs(AllAge(u), i, k, p, OUT) && AllAge(u).avail > u.avail
  {
    LoadedPart(s, calls, n + 1, PAGEWAIT, k);
    SwapLatency(s, calls, n, i, k, p, -1);
    if n == PAGEWAIT - 1 {
      RunKeepsInv(s, calls, n);
      StepKeepsPage(Run(s, calls, n), i, k, p, -PAGEWAIT);
      AgingFreesFrame(AllStep(Run(s, calls, n)), i, k, p);
    }
  }

  lemma StepKeepsPage(s: State, i: int, k: nat, p: nat, v: int)
    requires Inv(s) && PageIs(s, i, k, p, v) && Tick(s).jobs[k].active
    ensures Inv(AllStep(s)) && PageIs(AllStep(s), i, k, p, v)
  {
    TickOfJob(s, k);
    TickKeepsSlot(s, i, k);
    assert Running(s, k);
  }

  lemma StaysMoving(v: int, n: nat, m: nat)
    requires m < n && Moving(v) && Moving(v - n) && (v > 0 ==> v - n > 0)
    ensures Moving(v - m) && Moving(v - m - 1)
  {
  }

  /** Tick `t` leads from one state to the next, and job `k` is not unloaded in it. */
  ghost predicate Undisturbed(states: seq<State>, calls: seq<seq<Op>>, k: nat, t: nat)
    requires t + 1 < |states| && t < |calls|
  {
    && Inv(states[t]) && IsCalls(calls[t]) && states[t + 1] == TickWith(states[t], calls[t])
    && k < |states[t].jobs| && Tick(states[t]).jobs[k].active
  }

  lemma RunUndisturbed(s: State, calls: seq<seq<Op>>, n: nat, k: nat, t: nat)
    requires Inv(s) && t < n <= |calls| && PagerCalls(calls) && k < |s.jobs| && StaysLoaded(s, calls, n, k)
    ensures Undisturbed(States(s, calls, n), calls, k, t)
  {
    RunKeepsInv(s, calls, t);
  }

  ghost function MovedPage(i: int, k: nat, p: nat, v: int): (nat, State) -> bool {
    (m: nat, t: State) => PageIs(t, i, k, p, v - m)
  }

  lemma UndisturbedMoves(states: seq<State>, calls: seq<seq<Op>>, t: nat, i: int, k: nat, p: nat, v: int)
    requires t + 1 < |states| && t < |calls| && Undisturbed(states, calls, k, t) && Moving(v - t) && Moving(v - t - 1)
    ensures StateMoves(MovedPage(i, k, p, v), states, t)
  {
    if PageIs(states[t], i, k, p, v - t) {
      TickMovesPage(states[t], calls[t], i, k, p, v - t);
    }
  }

  lemma PageMovesTo(states: seq<State>, calls: seq<seq<Op>>, n: nat, i: int, k: nat, p: nat, v: int)
    requires n < |states| && n <= |calls| && PageIs(states[0], i, k, p, v)
    requires Moving(v) && Moving(v - n) && (v > 0 ==> v - n > 0)
    requires forall t | 0 <= t < n :: Undisturbed(states, calls, k, t)
    ensures PageIs(states[n], i, k, p, v - n)
  {
    var P := MovedPage(i, k, p, v);
    forall t | 0 <= t < n
      ensures StateMoves(P, states, t)
    {
      StaysMoving(v, n, t);
      UndisturbedMoves(states, calls, t, i, k, p, v);
    }
    EveryStateMoves(P, states, n);
    assert P(n, states[n]);
  }

  lemma RunMovesPage(s: State, calls: seq<seq<Op>>, n: nat, i: int, k: nat, p: nat, v: int)
    requires Inv(s) && n <= |calls| && PagerCalls(calls) && PageIs(s, i, k, p, v)
    requires Moving(v) && Moving(v - n) && (v > 0 ==> v - n > 0) && StaysLoaded(s, calls, n, k)
    ensures PageIs(Run(s, calls, n), i, k, p, v - n)
  {
    var states := States(s, calls, n);
    assert states[0] == s;
    forall t | 0 <= t < n
      ensures Undisturbed(states, calls, k, t)
    {
      RunUndisturbed(s, calls, n, k, t);
    }
    PageMovesTo(states, calls, n, i, k, p, v);
  }

  // ---------- Throughput ----------

  /** The least number of ticks before the page's frame can be back in the pool. */
  function Lease(v: int): int {
    if v > 0 then v + PAGEWAIT
    else if v == 0 then PAGEWAIT
    else if v >= -PAGEWAIT then v + PAGEWAIT + 1
    else 0
  }

  /** How many of the first `n` pages have a lease of at least `d`. */
  function LeasedTo(pages: seq<int>, d: int, n: nat): (r: nat)
    requires n <= |pages|
  {
    if n == 0 then 0 else LeasedTo(pages, d, n - 1) + (if Lease(pages[n - 1]) >= d then 1 else 0)
  }

  function Leases(jobs: seq<Job>, d: int): (r: seq<int>)
    ensures |r| == |jobs| && forall k | 0 <= k < |jobs| :: r[k] == LeasedTo(jobs[k].pages, d, |jobs[k].pages|)
  {
    seq(|jobs|, k requires 0 <= k < |jobs| => LeasedTo(jobs[k].pages, d, |jobs[k].pages|))
  }

  /** All pages with a lease of at least `d`. */
  function Leased(s: State, d: int): int {
    Sum(Leases(s.jobs, d))
  }

  lemma {:induction false} LeasedUpdate(pages: seq<int>, d: int, n: nat, p: nat, v: int)
    requires n <= |pages| && p < |pages|
    ensures LeasedTo(pages[p := v], d, n) == LeasedTo(pages, d, n)
      + (if p < n then (if Lease(v) >= d then 1 else 0) - (if Lease(pages[p]) >= d then 1 else 0) else 0)
  {
    if n > 0 {
      LeasedUpdate(pages, d, n - 1, p, v);
    }
  }

  /** A tick shortens a lease by at most one. */
  lemma {:induction false} LeasedAfterAging(pages: seq<int>, d: int, n: nat)
    requires n <= |pages| && d > 1
    ensures LeasedTo(AgePages(pages), d - 1, n) >= LeasedTo(pages, d, n)
    ensures LeasedTo(pages, d - 1, n) >= LeasedTo(pages, d, n)
  {
    if n > 0 {
      LeasedAfterAging(pages, d, n - 1);
    }
  }

  lemma {:induction false} LeasedIsHeld(pages: seq<int>, n: nat)
    requires n <= |pages|
    ensures LeasedTo(pages, 1, n) == HeldTo(pages, n)
  {
    if n > 0 {
      LeasedIsHeld(pages, n - 1);
    }
  }

  /** Operation `o` starts a page-in. */
  ghost predicate Starts(s: State, o: Op)
    requires WellFormed(s)
  {
    o.In? && Addressed(s, o.proc, o.page) && PageOf(s, o.proc, o.page) == OUT && s.avail != 0
  }

  ghost function StartFlags(s: State, ops: seq<Op>, n: nat): (r: seq<int>)
    requires WellFormed(s) && n <= |ops|
    ensures |r| == n && forall i | 0 <= i < n :: r[i] == (if Starts(DoTo(s, ops, i), ops[i]) then 1 else 0)
  {
    seq(n, i requires 0 <= i < n => if Starts(DoTo(s, ops, i), ops[i]) then 1 else 0)
  }

  /** How many of the first `n` operations start a page-in. */
  ghost function StartsTo(s: State, ops: seq<Op>, n: nat): int
    requires WellFormed(s) && n <= |ops|
  {
    Sum(StartFlags(s, ops, n))
  }

  lemma SetPageLeases(s: State, slot: int, page: int, v: int, d: int)
    requires WellFormed(s) && Addressed(s, slot, page) && ValidPage(v)
    ensures Leased(SetPage(s, slot, page, v), d) == Leased(s, d)
      + (if Lease(v) >= d then 1 else 0) - (if Lease(PageOf(s, slot, page)) >= d then 1 else 0)
  {
    var k := s.slots[slot].value;
    var pages := s.jobs[k].pages[page := v];
    LeasedUpdate(s.jobs[k].pages, d, |pages|, page, v);
    assert Leases(SetPage(s, slot, page, v).jobs, d) == Leases(s.jobs, d)[k := LeasedTo(pages, d, |pages|)];
    SumUpdate(Leases(s.jobs, d), |s.jobs|, k, LeasedTo(pages, d, |pages|));
  }

  /** A call only adds leases: a full one for each page-in it starts. */
  lemma CallLeases(s: State, o: Op, d: int)
    requires WellFormed(s) && IsCall(o) && 1 <= d <= 2 * PAGEWAIT
    ensures Leased(Do(s, o), d) == Leased(s, d) + (if Starts(s, o) then 1 else 0)
  {
    match o
    case In(i, p) =>
      if Starts(s, o) {
        SetPageLeases(s, i, p, PAGEWAIT, d);
      }
    case Out(i, p) =>
      if Addressed(s, i, p) && PageOf(s, i, p) == 0 {
        SetPageLeases(s, i, p, -1, d);
      }
  }

  lemma NextCallLeases(s: State, ops: seq<Op>, i: nat, d: int)
    requires WellFormed(s) && IsCalls(ops) && i < |ops| && 1 <= d <= 2 * PAGEWAIT
    ensures Leased(DoTo(s, ops, i + 1), d)
         == Leased(DoTo(s, ops, i), d) + (if Starts(DoTo(s, ops, i), ops[i]) then 1 else 0)
  {
    CallLeases(DoTo(s, ops, i), ops[i], d);
  }

  /** The leases before each of the first `n` operations, and after them. */
  function LeasesTo(s: State, ops: seq<Op>, n: nat, d: int): (r: seq<int>)
    requires WellFormed(s) && n <= |ops|
    ensures |r| == n + 1 && forall i | 0 <= i <= n :: r[i] == Leased(DoTo(s, ops, i), d)
  {
    seq(n + 1, i requires 0 <= i <= n => Leased(DoTo(s, ops, i), d))
  }

  lemma CallsLeases(s: State, ops: seq<Op>, n: nat, d: int)
    requires WellFormed(s) && IsCalls(ops) && n <= |ops| && 1 <= d <= 2 * PAGEWAIT
    ensures Leased(DoTo(s, ops, n), d) == Leased(s, d) + StartsTo(s, ops, n)
  {
    var leases, starts := LeasesTo(s, ops, n, d), StartFlags(s, ops, n);
    forall i | 0 <= i < n
      ensures leases[i + 1] == leases[i] + starts[i]
    {
      NextCallLeases(s, ops, i, d);
    }
    DifferencesAddUp(leases, starts, n);
    NoCallLeases(s, ops, d);
  }

  lemma NoCallLeases(s: State, ops: seq<Op>, d: int)
    requires WellFormed(s)
    ensures Leased(DoTo(s, ops, 0), d) == Leased(s, d)
  {
  }

  /** No job finishes in this tick. */
  ghost predicate NoUnload(s: State)
    requires WellFormed(s)
  {
    forall k | 0 <= k < |s.jobs| :: Tick(s).jobs[k].active == s.jobs[k].active
  }

  lemma TickPages(s: State, k: nat)
    requires Inv(s) && NoUnload(s) && k < |s.jobs|
    ensures Tick(s).jobs[k].pages == s.jobs[k].pages || Tick(s).jobs[k].pages == AgePages(s.jobs[k].pages)
  {
    TickOfJob(s, k);
    SteppedPages(s.jobs[k]);
    AgedPages(AllStep(s).jobs[k]);
  }

  lemma SteppedPages(j: Job)
    requires ValidJob(j)
    ensures Stepped(j).active == j.active ==> Stepped(j).pages == j.pages
  {
  }

  lemma AgedPages(j: Job)
    requires ValidJob(j)
    ensures AgeJob(j).pages == AgePages(j.pages) && AgeJob(j).active == j.active
  {
  }

  lemma TickLeases(s: State, d: int)
    requires Inv(s) && NoUnload(s) && d > 1
    ensures Leased(Tick(s), d - 1) >= Leased(s, d)
  {
    var t := Tick(s);
    forall k | 0 <= k < |s.jobs|
      ensures Leases(s.jobs, d)[k] <= Leases(t.jobs, d - 1)[k]
    {
      TickPages(s, k);
      LeasedAfterAging(s.jobs[k].pages, d, |s.jobs[k].pages|);
    }
    SumOrder(Leases(s.jobs, d), Leases(t.jobs, d - 1), |s.jobs|);
  }

  /** The page-ins started in each of the first `n` ticks. */
  ghost function StartsIn(s: State, calls: seq<seq<Op>>, n: nat): (r: seq<int>)
    requires WellFormed(s) && n <= |calls|
    ensures |r| == n && forall t | 0 <= t < n :: r[t] == StartsTo(Tick(Run(s, calls, t)), calls[t], |calls[t]|)
  {
    seq(n, t requires 0 <= t < n => StartsTo(Tick(Run(s, calls, t)), calls[t], |calls[t]|))
  }

  /** The frames that cannot be back before the end of the window, at the start of each tick and at the end. */
  function LeasesIn(leased: (State, int) -> int, states: seq<State>, d: int): (r: seq<int>)
    ensures |r| == |states| && forall t | 0 <= t < |states| :: r[t] == leased(states[t], d - t)
  {
    seq(|states|, t requires 0 <= t < |states| => leased(states[t], d - t))
  }

  /** Every page-in that starts in a tick takes a full lease. */
  lemma StartsOnce(s: State, calls: seq<seq<Op>>, t: nat)
    requires Inv(s) && t < |calls| && IsCalls(calls[t]) && t < 2 * PAGEWAIT && NoUnload(Run(s, calls, t))
    ensures Leased(Run(s, calls, t + 1), 2 * PAGEWAIT - t)
         >= Leased(Run(s, calls, t), 2 * PAGEWAIT + 1 - t) + StartsTo(Tick(Run(s, calls, t)), calls[t], |calls[t]|)
  {
    RunKeepsInv(s, calls, t);
    TickStarts(Run(s, calls, t), calls[t], 2 * PAGEWAIT + 1 - t);
  }

  lemma TickStarts(u: State, calls: seq<Op>, d: int)
    requires Inv(u) && IsCalls(calls) && NoUnload(u) && 1 < d <= 2 * PAGEWAIT + 1
    ensures Leased(TickWith(u, calls), d - 1) >= Leased(u, d) + StartsTo(Tick(u), calls, |calls|)
  {
    TickLeases(u, d);
    CallsLeases(Tick(u), calls, |calls|, d - 1);
  }

  /** Every page-in started in the window still has its frame, with the rest of its lease. */
  lemma StartsAreLeased(s: State, calls: seq<seq<Op>>, n: nat)
    requires Inv(s) && n <= |calls| && PagerCalls(calls) && n <= 2 * PAGEWAIT
    requires forall m | 0 <= m < n :: NoUnload(Run(s, calls, m))
    ensures Sum(StartsIn(s, calls, n)) <= Leased(Run(s, calls, n), 2 * PAGEWAIT + 1 - n)
  {
    var d := 2 * PAGEWAIT + 1;
    forall t | 0 <= t < n
      ensures GrowsBy(Leased, s, calls, d, t)
    {
      LeasesGrow(s, calls, n, d, t);
    }
    LeasesAddUp(Leased, s, calls, n, d);
    LeasedPositive(s, d);
  }

  /** In tick number `t` the leases grow by the page-ins it starts. */
  ghost predicate GrowsBy(leased: (State, int) -> int, s: State, calls: seq<seq<Op>>, d: int, t: nat)
    requires WellFormed(s) && t < |calls|
  {
    leased(Run(s, calls, t + 1), d - t - 1)
    >= leased(Run(s, calls, t), d - t) + StartsTo(Tick(Run(s, calls, t)), calls[t], |calls[t]|)
  }

  lemma LeasesAddUp(leased: (State, int) -> int, s: State, calls: seq<seq<Op>>, n: nat, d: int)
    requires WellFormed(s) && n <= |calls| && forall t | 0 <= t < n :: GrowsBy(leased, s, calls, d, t)
    ensures leased(Run(s, calls, n), d - n) >= leased(s, d) + Sum(StartsIn(s, calls, n))
  {
    var leases, starts := LeasesIn(leased, States(s, calls, n), d), StartsIn(s, calls, n);
    forall t | 0 <= t < n
      ensures leases[t + 1] >= leases[t] + starts[t]
    {
      assert GrowsBy(leased, s, calls, d, t);
    }
    GrowthAddsUp(leases, starts, n);
    assert Run(s, calls, 0) == s;
  }

  lemma LeasesGrow(s: State, calls: seq<seq<Op>>, n: nat, d: int, t: nat)
    requires Inv(s) && t < n <= |calls| && PagerCalls(calls) && n <= 2 * PAGEWAIT && d == 2 * PAGEWAIT + 1
    requires NoUnload(Run(s, calls, t))
    ensures GrowsBy(Leased, s, calls, d, t)
  {
    StartsOnce(s, calls, t);
  }

  lemma LeasedPositive(s: State, d: int)
    ensures Leased(s, d) >= 0
  {
    var zeros := seq(|s.jobs|, k => 0);
    SumOfZeros(zeros, |s.jobs|);
    SumOrder(zeros, Leases(s.jobs, d), |s.jobs|);
  }

  lemma LeasedAtMostAll(s: State)
    requires Inv(s)
    ensures Leased(s, 1) <= PHYSICALPAGES
  {
    forall k | 0 <= k < |s.jobs|
      ensures Leases(s.jobs, 1)[k] <= Frames(s.jobs)[k]
    {
      LeasedIsHeld(s.jobs[k].pages, |s.jobs[k].pages|);
    }
    SumOrder(Leases(s.jobs, 1), Frames(s.jobs), |s.jobs|);
  }

  lemma {:induction false} LeasedLess(s: State, d: int)
    requires d >= 1
    ensures Leased(s, d) <= Leased(s, 1)
    decreases d
  {
    if d > 1 {
      forall k | 0 <= k < |s.jobs|
        ensures Leases(s.jobs, d)[k] <= Leases(s.jobs, d - 1)[k]
      {
        LeasedAfterAging(s.jobs[k].pages, d, |s.jobs[k].pages|);
      }
      SumOrder(Leases(s.jobs, d), Leases(s.jobs, d - 1), |s.jobs|);
      LeasedLess(s, d - 1);
    }
  }

  /**
   Throughput: in at most 2 * PAGEWAIT consecutive ticks in which no job is unloaded, no more
   page-ins start than there are frames, whatever the pager does.
   */
  lemma SwapThroughput(s: State, calls: seq<seq<Op>>, n: nat)
    requires Inv(s) && n <= |calls| && PagerCalls(calls) && n <= 2 * PAGEWAIT
    requires forall m | 0 <= m < n :: NoUnload(Run(s, calls, m))
    ensures Sum(StartsIn(s, calls, n)) <= PHYSICALPAGES
  {
    StartsAreLeased(s, calls, n);
    RunKeepsInv(s, calls, n);
    LeasedLess(Run(s, calls, n), 2 * PAGEWAIT + 1 - n);
    LeasedAtMostAll(Run(s, calls, n));
  }
}
