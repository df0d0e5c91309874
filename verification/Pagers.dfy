/** The two pagers, as clients of the simulator's interface. */
module Pagers {
  import opened Machine
  import opened Simulation
  import opened Invariants
  import opened Effects
  import opened Simulators
  import opened BasicPaging
  import opened ClockHand
  import opened ClockPaging
  import opened ClockCalls

  /** What `callyou` shows: an entry for every slot of the machine. */
  ghost predicate Shows(s: State, entries: seq<Pentry>)
    requires WellFormed(s)
  {
    |entries| == MAXPROCESSES && forall i | 0 <= i < |entries| :: entries[i] == Shown(s, i)
  }

  function Shown(s: State, i: nat): Pentry
    requires WellFormed(s)
  {
    if i < |s.slots| then EntryOf(s, i) else NoEntry()
  }

  // ---------- pager-lru.c ----------

  class LruPager {
    var tick: nat
    const timestamps: array2<int>

    ghost predicate Valid()
      reads this, timestamps
    {
      && timestamps.Length0 == MAXPROCESSES && timestamps.Length1 == MAXPROCPAGES
      && tick >= 1
      && forall i, p | 0 <= i < MAXPROCESSES && 0 <= p < MAXPROCPAGES :: timestamps[i, p] <= tick
    }

    /** The static variables, as the first call of `pageit` finds them. */
    constructor ()
      ensures Valid() && tick == 1 && fresh(timestamps)
    {
      tick := 1;
      timestamps := new int[MAXPROCESSES, MAXPROCPAGES]((i, p) => 0);
    }

    /** The time stamps of a process. */
    ghost predicate Dimensions(process: nat, page: nat) {
      && timestamps.Length0 == MAXPROCESSES && timestamps.Length1 == MAXPROCPAGES
      && process < MAXPROCESSES && page < MAXPROCPAGES
    }

    /** A page that the scan prefers to the hand: resident, not above the hand, and used later than the current page. */
    ghost predicate Candidate(entry: Pentry, process: nat, page: nat, p: int)
      requires Dimensions(process, page) && |entry.pages| == MAXPROCPAGES
      reads timestamps
    {
      && 0 < p <= timestamps[process, page] % MAXPROCPAGES
      && entry.pages[p] && timestamps[process, p] > timestamps[process, page]
    }

    /** `q` is used no later than `p`, and lies below it if at the same time. */
    ghost predicate NotBefore(process: nat, p: nat, q: nat)
      requires Dimensions(process, p) && q < MAXPROCPAGES
      reads timestamps
    {
      timestamps[process, q] < timestamps[process, p] || (timestamps[process, q] == timestamps[process, p] && q <= p)
    }

    /** The scan for a victim: the latest used candidate, the highest one if there are several, or else the hand. */
    method Victim(entry: Pentry, process: nat, page: nat) returns (pageToSwap: int)
      requires Dimensions(process, page) && |entry.pages| == MAXPROCPAGES && timestamps[process, page] >= 0
      ensures 0 <= pageToSwap < MAXPROCPAGES
      ensures Candidate(entry, process, page, pageToSwap) || pageToSwap == timestamps[process, page] % MAXPROCPAGES
      ensures forall q | Candidate(entry, process, page, q) ::
        Candidate(entry, process, page, pageToSwap) && NotBefore(process, pageToSwap, q)
    {
      var maxTime := timestamps[process, page];
      pageToSwap := maxTime % MAXPROCPAGES;
      var hand := pageToSwap;
      var oldpage := hand;
      while oldpage > 0
        invariant 0 <= oldpage <= hand && 0 <= pageToSwap < MAXPROCPAGES
        invariant maxTime > timestamps[process, page] ==>
          && Candidate(entry, process, page, pageToSwap)
          && timestamps[process, pageToSwap] == maxTime && oldpage < pageToSwap
        invariant maxTime == timestamps[process, page] ==> pageToSwap == hand
        invariant maxTime >= timestamps[process, page]
        invariant forall q | Candidate(entry, process, page, q) && q > oldpage ::
          maxTime > timestamps[process, page] && NotBefore(process, pageToSwap, q)
      {
        if entry.pages[oldpage] && timestamps[process, oldpage] > maxTime {
          maxTime := timestamps[process, oldpage];
          pageToSwap := oldpage;
        }
        oldpage := oldpage - 1;
      }
    }

    /** The page under the hand starts on its way out, and the page is asked for again. */
    method MakeRoom(sim: Simulator, entry: Pentry, process: nat, page: nat)
      requires Valid() && sim.Structure() && sim.Valid() && process < sim.procs && page < MAXPROCPAGES
      requires Occupied(sim.View(), process) && !PageIn(sim.View(), process, page).1
      requires |entry.pages| == MAXPROCPAGES && timestamps[process, page] == tick
      requires this !in sim.repr && timestamps !in sim.repr
      modifies sim.repr
      ensures sim.Valid() && sim.View() == PageOut(old(sim.View()), process, Hand(tick)).0
    {
      var victim := Victim(entry, process, page);
      SwapAndRetry(sim, process, page, victim);
    }

    /** One slot's share of `pageit`. */
    method PageSlot(sim: Simulator, entry: Pentry, process: nat)
      requires Valid() && sim.Structure() && sim.Valid() && process < MAXPROCESSES
      requires entry == Shown(sim.View(), process)
      requires this !in sim.repr && timestamps !in sim.repr
      modifies timestamps, sim.repr
      ensures Valid() && sim.Valid() && sim.View() == Turn(old(sim.View()), process, tick)
    {
      ghost var s := sim.View();
      if entry.active {
        assert Occupied(s, process);
        var page := entry.pc / PAGESIZE;
        timestamps[process, page] := tick;
        if !entry.pages[page] {
          var ok := sim.PageIn(process, page);
          if !ok {
            RefusedDoesNothing(s, In(process, page));
            MakeRoom(sim, entry, process, page);
          }
        }
      }
    }

    /** The same, after the shares of the slots before it. */
    method PageNext(sim: Simulator, entries: seq<Pentry>, process: nat, ghost s: State)
      requires Valid() && sim.Structure() && sim.Valid() && process < MAXPROCESSES
      requires Inv(s) && Shows(s, entries) && sim.View() == Turns(s, process, tick)
      requires this !in sim.repr && timestamps !in sim.repr
      modifies timestamps, sim.repr
      ensures Valid() && sim.Valid() && sim.View() == Turns(s, process + 1, tick)
    {
      StillShown(s, process, tick);
      OneMoreTurn(s, process, tick);
      PageSlot(sim, entries[process], process);
    }

    /** The loop of `pageit`. */
    method PageAll(sim: Simulator, entries: seq<Pentry>)
      requires Valid() && sim.Structure() && sim.Valid() && Inv(sim.View()) && Shows(sim.View(), entries)
      requires this !in sim.repr && timestamps !in sim.repr
      modifies timestamps, sim.repr
      ensures Valid() && sim.Valid() && sim.View() == Turns(old(sim.View()), MAXPROCESSES, tick)
    {
      ghost var s := sim.View();
      for process := 0 to MAXPROCESSES
        invariant Valid() && sim.Valid() && sim.View() == Turns(s, process, tick)
      {
        PageNext(sim, entries, process, s);
      }
    }

    /** `pageit`. */
    method PageIt(sim: Simulator, entries: seq<Pentry>)
      requires Valid() && sim.Structure() && sim.Valid() && Inv(sim.View()) && Shows(sim.View(), entries)
      requires this !in sim.repr && timestamps !in sim.repr
      modifies this, timestamps, sim.repr
      ensures Valid() && tick == old(tick) + 1
      ensures sim.Valid() && sim.View() == Clock(old(sim.View()), old(tick))
      ensures PagesTurned(old(sim.View()), sim.View(), old(tick))
    {
      AllTurns(sim.View(), tick);
      ClockPages(sim.View(), tick);
      PageAll(sim, entries);
      tick := tick + 1;
    }
  }

  /** A page-out, and the call that is refused again. */
  method SwapAndRetry(sim: Simulator, process: nat, page: nat, victim: nat)
    requires sim.Structure() && sim.Valid() && process < sim.procs && page < MAXPROCPAGES && victim < MAXPROCPAGES
    requires Occupied(sim.View(), process) && !PageIn(sim.View(), process, page).1
    modifies sim.repr
    ensures sim.Valid() && sim.View() == PageOut(old(sim.View()), process, victim).0
  {
    RetryFails(sim.View(), process, page, victim);
    var out := sim.PageOut(process, victim);
    var again := sim.PageIn(process, page);
  }

  /** Starting a page-out frees no frame yet, so asking again for the page fails again. */
  lemma RetryFails(s: State, i: nat, page: nat, victim: nat)
    requires WellFormed(s) && i < |s.slots| && Occupied(s, i) && page < MAXPROCPAGES && victim < MAXPROCPAGES
    requires !PageIn(s, i, page).1
    ensures PageIn(s, i, page).0 == s
    ensures var t := PageOut(s, i, victim).0; PageIn(t, i, page) == (t, false)
  {
  }

  /** A slot's share; the machine may have fewer slots than the pager looks at. */
  function Turn(s: State, i: nat, tick: nat): (r: State)
    requires WellFormed(s)
    ensures WellFormed(r) && |r.slots| == |s.slots|
  {
    if i < |s.slots| then ClockSlot(s, i, tick) else s
  }

  function Turns(s: State, n: nat, tick: nat): (r: State)
    requires WellFormed(s)
    ensures WellFormed(r) && |r.slots| == |s.slots|
  {
    ClockTo(s, if n < |s.slots| then n else |s.slots|, tick)
  }

  /** Slots hold different jobs, so a slot's entry still describes it when its turn comes. */
  lemma OwnTurn(s: State, i: nat, tick: nat)
    requires Inv(s) && i < |s.slots|
    ensures EntryOf(ClockTo(s, i, tick), i) == EntryOf(s, i)
  {
    ClockPass(s, i, tick);
    HeldBelowNext(s, i);
  }

  lemma StillShown(s: State, i: nat, tick: nat)
    requires Inv(s)
    ensures Shown(Turns(s, i, tick), i) == Shown(s, i)
  {
    if i < |s.slots| {
      OwnTurn(s, i, tick);
    }
  }

  lemma OneMoreTurn(s: State, i: nat, tick: nat)
    requires WellFormed(s)
    ensures Turns(s, i + 1, tick) == Turn(Turns(s, i, tick), i, tick)
  {
  }

  lemma AllTurns(s: State, tick: nat)
    requires WellFormed(s) && |s.slots| <= MAXPROCESSES
    ensures Turns(s, MAXPROCESSES, tick) == Clock(s, tick)
  {
  }

  // ---------- pager-basic.c ----------

  /** `pageit`: all work goes to the first active process. */
  method BasicPageIt(sim: Simulator, entries: seq<Pentry>)
    requires sim.Structure() && sim.Valid() && Shows(sim.View(), entries)
    modifies sim.repr
    ensures sim.Valid() && sim.View() == DoAll(old(sim.View()), BasicCalls(old(sim.View())))
  {
    ghost var s := sim.View();
    for process := 0 to MAXPROCESSES
      invariant sim.Valid() && sim.View() == s
      invariant forall m | 0 <= m < process && m < |s.slots| :: !Occupied(s, m)
    {
      if entries[process].active {
        FirstIs(s, process);
        ServeHead(sim, entries[process], process);
        return;
      }
    }
    assert FirstOccupied(s, 0) == None;
  }

  /** The first active process gets its page in, or else one of its pages out. */
  method ServeHead(sim: Simulator, entry: Pentry, process: nat)
    requires sim.Structure() && sim.Valid() && process < sim.procs
    requires Occupied(sim.View(), process) && entry == EntryOf(sim.View(), process)
    requires FirstOccupied(sim.View(), 0) == Some(process)
    modifies sim.repr
    ensures sim.Valid() && sim.View() == DoAll(old(sim.View()), BasicCalls(old(sim.View())))
  {
    ghost var s := sim.View();
    var page := entry.pc / PAGESIZE;
    if !entry.pages[page] {
      var ok := sim.PageIn(process, page);
      DoOne(s, In(process, page));
      if !ok {
        RefusedCall(s, In(process, page), OutCalls(s, process, page, 0));
        SwapOneOut(sim, process, page, entry.npages);
      }
    }
  }

  method SwapOneOut(sim: Simulator, process: nat, page: nat, npages: int)
    requires sim.Structure() && sim.Valid() && npages == MAXPROCPAGES
    modifies sim.repr
    ensures sim.Valid()
    ensures sim.View() == DoAll(old(sim.View()), OutCalls(old(sim.View()), process, page, 0))
  {
    ghost var s := sim.View();
    ghost var end := DoAll(s, OutCalls(s, process, page, 0));
    for oldpage := 0 to npages
      invariant sim.Valid() && sim.View() == s
      invariant DoAll(s, OutCalls(s, process, page, oldpage)) == end
    {
      if oldpage != page {
        var ok := TryOut(sim, process, page, oldpage);
        if ok {
          return;
        }
      }
    }
  }

  /** One page-out; if it is accepted that was the last call. */
  method TryOut(sim: Simulator, process: nat, page: nat, oldpage: nat) returns (ok: bool)
    requires sim.Structure() && sim.Valid() && oldpage < MAXPROCPAGES && oldpage != page
    modifies sim.repr
    ensures sim.Valid()
    ensures var s := old(sim.View()); var end := DoAll(s, OutCalls(s, process, page, oldpage));
      if ok then sim.View() == end
      else sim.View() == s && DoAll(s, OutCalls(s, process, page, oldpage + 1)) == end
  {
    ghost var s := sim.View();
    ok := sim.PageOut(process, oldpage);
    if ok {
      OutAccepted(s, process, page, oldpage);
    } else {
      OutRefused(s, process, page, oldpage);
    }
  }

  lemma OutAccepted(s: State, i: nat, page: nat, oldpage: nat)
    requires WellFormed(s) && oldpage < MAXPROCPAGES && oldpage != page && PageOut(s, i, oldpage).1
    ensures DoAll(s, OutCalls(s, i, page, oldpage)) == PageOut(s, i, oldpage).0
  {
    DoOne(s, Out(i, oldpage));
  }

  lemma OutRefused(s: State, i: nat, page: nat, oldpage: nat)
    requires WellFormed(s) && oldpage < MAXPROCPAGES && oldpage != page && !PageOut(s, i, oldpage).1
    ensures PageOut(s, i, oldpage).0 == s
    ensures DoAll(s, OutCalls(s, i, page, oldpage)) == DoAll(s, OutCalls(s, i, page, oldpage + 1))
  {
    RefusedCall(s, Out(i, oldpage), OutCalls(s, i, page, oldpage + 1));
  }

  /** A call that is refused changes nothing. */
  lemma RefusedCall(s: State, o: Op, rest: seq<Op>)
    requires WellFormed(s)
    requires (o.In? && !PageIn(s, o.proc, o.page).1) || (o.Out? && !PageOut(s, o.proc, o.page).1)
    ensures Do(s, o) == s && DoAll(s, [o] + rest) == DoAll(s, rest)
  {
    RefusedDoesNothing(s, o);
    SkipFirst(s, o, rest);
  }

  lemma RefusedDoesNothing(s: State, o: Op)
    requires WellFormed(s)
    requires (o.In? && !PageIn(s, o.proc, o.page).1) || (o.Out? && !PageOut(s, o.proc, o.page).1)
    ensures Do(s, o) == s
  {
  }

  lemma SkipFirst(s: State, o: Op, rest: seq<Op>)
    requires WellFormed(s) && Do(s, o) == s
    ensures DoAll(s, [o] + rest) == DoAll(s, rest)
  {
    var ops := [o] + rest;
    OnlyFirst(s, ops);
    FirstThenRest(s, ops, rest, |rest|);
  }

  lemma OnlyFirst(s: State, ops: seq<Op>)
    requires WellFormed(s) && |ops| > 0
    ensures DoTo(s, ops, 1) == Do(s, ops[0])
  {
    assert DoTo(s, ops, 0) == s;
  }

  lemma NextOp(s: State, ops: seq<Op>, n: nat, o: Op, u: State)
    requires WellFormed(s) && n < |ops| && ops[n] == o && u == DoTo(s, ops, n)
    ensures DoTo(s, ops, n + 1) == Do(u, o)
  {
  }

  lemma {:induction false} FirstThenRest(s: State, ops: seq<Op>, rest: seq<Op>, n: nat)
    requires WellFormed(s) && n <= |rest| && |ops| == |rest| + 1 && forall i | 0 <= i < |rest| :: ops[i + 1] == rest[i]
    requires DoTo(s, ops, 1) == s
    ensures DoTo(s, ops, n + 1) == DoTo(s, rest, n)
  {
    if n > 0 {
      FirstThenRest(s, ops, rest, n - 1);
      NextOp(s, ops, n, rest[n - 1], DoTo(s, rest, n - 1));
      NextOp(s, rest, n - 1, rest[n - 1], DoTo(s, rest, n - 1));
    }
  }
}
