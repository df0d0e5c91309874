/**
 The pager of pager-lru.c, in the form it really has: a clock hand. Every occupied slot asks
 for its current page; if it cannot have it, the page under the hand starts on its way out.
 */
module ClockHand {
  import opened Machine
  import opened Simulation

  /** The page under the hand at time `tick`. */
  function Hand(tick: nat): (r: nat)
    ensures r < MAXPROCPAGES
  {
    tick % MAXPROCPAGES
  }

  /** One slot's share of an invocation. */
  function ClockSlot(s: State, i: nat, tick: nat): (r: State)
    requires WellFormed(s) && i < |s.slots|
    ensures WellFormed(r) && |r.slots| == |s.slots| && |r.jobs| == |s.jobs|
  {
    if !Occupied(s, i) then s
    else
      var j := s.jobs[s.slots[i].value];
      var page := CurrentPage(j);
      if j.pages[page] == 0 then s
      else if PageIn(s, i, page).1 then PageIn(s, i, page).0
      else PageOut(PageIn(s, i, page).0, i, Hand(tick)).0
  }

  function ClockTo(s: State, n: nat, tick: nat): (r: State)
    requires WellFormed(s) && n <= |s.slots|
    ensures WellFormed(r) && |r.slots| == |s.slots| && |r.jobs| == |s.jobs|
  {
    if n == 0 then s else ClockSlot(ClockTo(s, n - 1, tick), n - 1, tick)
  }

  /** An invocation of the pager. */
  function Clock(s: State, tick: nat): (r: State)
    requires WellFormed(s)
    ensures WellFormed(r) && |r.slots| == |s.slots| && |r.jobs| == |s.jobs|
  {
    ClockTo(s, |s.slots|, tick)
  }

  function ClockTick(s: State, tick: nat): (r: State)
    requires WellFormed(s)
    ensures WellFormed(r) && |r.slots| == |s.slots| && |r.jobs| == |s.jobs|
  {
    Clock(Tick(s), tick)
  }

  /** Tick after tick of the main loop with this pager. */
  ghost function ClockNext(): ((State, nat)) -> (State, nat) {
    (c: (State, nat)) => if WellFormed(c.0) then (ClockTick(c.0, c.1), c.1 + 1) else c
  }
}
