/** When the deadlock detector raises its alarm with each of the two pagers. */
module PagerAlarms {
  import opened Machine
  import opened Simulation
  import opened Invariants
  import opened Deadlock
  import opened BasicPaging
  import opened ClockHand
  import opened ClockPaging

  /** The head's page is in or on its way in when the detector looks. */
  lemma HeadIsNotOut(s: State)
    requires BasicInv(s)
    ensures !AllBlocked(CallHeadIn(s))
  {
    var head := FirstOccupied(s, 0);
    if head.Some? {
      var t, i := CallHeadIn(s), head.value;
      assert NoneLeaving(s.jobs[s.slots[i].value]);
      assert Occupied(t, i) && Timer(t.jobs[t.slots[i].value]) >= 0;
    }
  }

  /** With the basic pager the alarm is never raised. */
  lemma BasicRaisesNoAlarm(s: State)
    requires BasicInv(s)
    ensures !AllBlocked(BasicTick(s))
  {
    BasicTickKeepsInv(s);
    HeadIsNotOut(Tick(s));
  }

  ghost function AlarmedWithoutFrames(): State -> bool {
    s => WellFormed(s) && AllBlocked(s) && s.avail == 0
  }

  lemma CallsKeepAlarm(o: Op)
    requires IsCall(o)
    ensures Keeps(AlarmedWithoutFrames(), o)
  {
    forall s | AlarmedWithoutFrames()(s)
      ensures AlarmedWithoutFrames()(Do(s, o))
    {
      if o.Out? {
        AlarmedOut(s, o.proc, o.page);
        NoProgressKeepsAlarm(s, Do(s, o));
      }
    }
  }

  lemma AlarmStays(s: State, tick: nat)
    requires WellFormed(s) && AllBlocked(s) && s.avail == 0
    ensures AllBlocked(Clock(s, tick))
  {
    var P := AlarmedWithoutFrames();
    forall o: Op | IsCall(o)
      ensures Keeps(P, o)
    {
      CallsKeepAlarm(o);
    }
    ClockToKeeps(P, s, |s.slots|, tick);
    assert P(Clock(s, tick));
  }

  lemma ArrivingIsNoAlarm(s: State)
    requires WellFormed(s) && SlotsInv(s) && Arriving(s)
    ensures !AllBlocked(s)
  {
    var k :| 0 <= k < |s.jobs| && Running(s, k) && Timer(s.jobs[k]) >= 0;
    var i :| Holds(s, i, k);
    assert Occupied(s, i);
  }

  lemma AlarmedJob(s: State) returns (k: nat)
    requires WellFormed(s) && AllBlocked(s)
    ensures k < |s.jobs| && Running(s, k) && Timer(s.jobs[k]) == OUT
  {
    var i :| 0 <= i < |s.slots| && Occupied(s, i);
    k := s.slots[i].value;
    assert Holds(s, i, k);
  }

  /** With a frame to spare, a page is called in. */
  lemma FrameEndsAlarm(s: State, tick: nat)
    requires Inv(s) && AllBlocked(s) && s.avail > 0
    ensures !AllBlocked(Clock(s, tick))
  {
    var k := AlarmedJob(s);
    ClockEffect(s, tick);
    ArrivingIsNoAlarm(Clock(s, tick));
  }

  lemma ClockedIsNotOut(j: Job, j': Job, tick: nat)
    requires ValidJob(j) && ValidJob(j') && Clocked(j, j', tick)
    ensures j'.active == j.active && (Timer(j') == OUT ==> Timer(j) == OUT)
  {
  }

  lemma SlotIsNotOut(s: State, tick: nat, i: nat)
    requires Inv(s) && i < |s.slots|
    ensures var t := Clock(s, tick);
      && t.slots == s.slots
      && (Occupied(t, i) <==> Occupied(s, i))
      && (Occupied(s, i) && Timer(t.jobs[s.slots[i].value]) == OUT ==> Timer(s.jobs[s.slots[i].value]) == OUT)
  {
    ClockEffect(s, tick);
    if s.slots[i].Some? {
      var k := s.slots[i].value;
      assert Holds(s, i, k);
      ClockedIsNotOut(s.jobs[k], Clock(s, tick).jobs[k], tick);
    }
  }

  /** The pager pages nothing out that a job is on. */
  lemma ClockRaisesNoAlarm(s: State, tick: nat)
    requires Inv(s) && AllBlocked(Clock(s, tick))
    ensures AllBlocked(s)
  {
    var i :| 0 <= i < |s.slots| && Occupied(Clock(s, tick), i);
    SlotIsNotOut(s, tick, i);
    assert Occupied(s, i);
    forall j | 0 <= j < |s.slots| && Occupied(s, j)
      ensures Timer(s.jobs[s.slots[j].value]) < -PAGEWAIT
    {
      SlotIsNotOut(s, tick, j);
    }
  }

  /** With the other pager it is on exactly when all current pages are out and no frame is available. */
  lemma LruAlarm(s: State, tick: nat)
    requires Inv(s)
    ensures AllBlocked(ClockTick(s, tick)) <==> AllBlocked(Tick(s)) && Tick(s).avail == 0
  {
    TickKeepsInv(s, []);
    if AllBlocked(ClockTick(s, tick)) {
      ClockRaisesNoAlarm(Tick(s), tick);
    }
    if AllBlocked(Tick(s)) {
      if Tick(s).avail == 0 {
        AlarmStays(Tick(s), tick);
      } else {
        FrameEndsAlarm(Tick(s), tick);
      }
    }
  }
}
