/** What a whole pass over the slots does, job by job. Slots are distinct, so no job gets two turns. */
module Effects {
  import opened Machine
  import opened Simulation
  import opened Invariants

  /** Job `k` is in one of the first `n` slots. */
  ghost predicate HeldBelow(s: State, n: int, k: int) {
    exists i :: i < n && Holds(s, i, k)
  }

  /** A running job after its turn in `allstep`. */
  function Stepped(j: Job): (r: Job)
    requires ValidJob(j)
    ensures ValidJob(r)
  {
    var (next, goes) := StepJob(j);
    if goes || !j.active then next else UnloadJob(next)
  }

  lemma OneTurn(s: State, n: nat)
    requires WellFormed(s) && n < |s.slots|
    ensures DoTo(s, StepOps(|s.slots|), n + 1) == StepSlot(DoTo(s, StepOps(|s.slots|), n), n)
    ensures DoTo(s, AgeOps(|s.slots|), n + 1) == AgeSlot(DoTo(s, AgeOps(|s.slots|), n), n)
  {
  }

  ghost predicate StepPassed(s: State, n: nat, t: State)
    requires WellFormed(s) && WellFormed(t) && |t.slots| == |s.slots| && |t.jobs| == |s.jobs|
  {
    && s.queueend <= t.queueend
    && (forall i | n <= i < |s.slots| :: t.slots[i] == s.slots[i])
    && (forall i | 0 <= i < |s.slots| ::
          t.slots[i] == s.slots[i] || (s.slots[i].Some? && !t.jobs[s.slots[i].value].active))
    && (forall k | 0 <= k < |s.jobs| ::
          t.jobs[k] == if HeldBelow(s, n, k) then Stepped(s.jobs[k]) else s.jobs[k])
  }

  /** One turn changes one job, and the slot only if that job finishes. */
  lemma StepSlotEffect(u: State, n: nat, k: nat)
    requires WellFormed(u) && Holds(u, n, k) && k < |u.jobs| && u.jobs[k].active
    ensures var t := StepSlot(u, n);
      && t.jobs == u.jobs[k := Stepped(u.jobs[k])] && u.queueend <= t.queueend
      && t.slots == u.slots[n := t.slots[n]]
      && (t.slots[n] == u.slots[n] || !t.jobs[k].active)
  {
  }

  lemma StepPassNext(s: State, n: nat, u: State)
    requires Inv(s) && WellFormed(u) && |u.slots| == |s.slots| && |u.jobs| == |s.jobs|
    requires n < |s.slots| && StepPassed(s, n, u)
    ensures StepPassed(s, n + 1, StepSlot(u, n))
  {
    HeldBelowNext(s, n);
    if s.slots[n].None? {
      assert StepSlot(u, n) == u;
    } else {
      StepTurnPasses(s, n, u, StepSlot(u, n), s.slots[n].value);
    }
  }

  lemma StepTurnPasses(s: State, n: nat, u: State, t: State, k: nat)
    requires Inv(s) && WellFormed(u) && |u.slots| == |s.slots| && |u.jobs| == |s.jobs|
    requires n < |s.slots| && StepPassed(s, n, u) && Holds(s, n, k) && t == StepSlot(u, n)
    ensures StepPassed(s, n + 1, t)
  {
    HeldBelowNext(s, n);
    assert u.slots[n] == s.slots[n] && u.jobs[k] == s.jobs[k];
    StepSlotEffect(u, n, k);
    TurnPasses(s, n, u, t, k);
  }

  lemma TurnPasses(s: State, n: nat, u: State, t: State, k: nat)
    requires Inv(s) && WellFormed(u) && |u.slots| == |s.slots| && |u.jobs| == |s.jobs|
    requires WellFormed(t) && |t.slots| == |s.slots| && |t.jobs| == |s.jobs|
    requires n < |s.slots| && StepPassed(s, n, u) && Holds(s, n, k) && !HeldBelow(s, n, k)
    requires t.jobs == u.jobs[k := Stepped(s.jobs[k])] && u.queueend <= t.queueend
    requires t.slots == u.slots[n := t.slots[n]] && (t.slots[n] == u.slots[n] || !t.jobs[k].active)
    requires forall m | 0 <= m < |s.jobs| :: HeldBelow(s, n + 1, m) <==> HeldBelow(s, n, m) || m == k
    ensures StepPassed(s, n + 1, t)
  {
    forall i | 0 <= i < |s.slots|
      ensures t.slots[i] == s.slots[i] || (s.slots[i].Some? && !t.jobs[s.slots[i].value].active)
    {
      if i != n && u.slots[i] != s.slots[i] {
        assert !u.jobs[s.slots[i].value].active;
        assert s.slots[i] != s.slots[n];
      }
    }
  }

  /** Slot `n` adds its own job, and that job was in no slot before it. */
  lemma HeldBelowNext(s: State, n: nat)
    requires Inv(s) && n < |s.slots|
    ensures forall k | 0 <= k < |s.jobs| :: HeldBelow(s, n + 1, k) <==> HeldBelow(s, n, k) || s.slots[n] == Some(k)
    ensures s.slots[n].Some? ==> !HeldBelow(s, n, s.slots[n].value)
  {
    forall k | 0 <= k < |s.jobs|
      ensures HeldBelow(s, n + 1, k) <==> HeldBelow(s, n, k) || s.slots[n] == Some(k)
    {
      if s.slots[n] == Some(k) {
        assert Holds(s, n, k);
      }
    }
  }

  lemma StepPassBegin(s: State)
    requires WellFormed(s)
    ensures StepPassed(s, 0, s)
  {
  }

  ghost function StepPassedBy(s: State): (nat, State) -> bool
    requires WellFormed(s)
  {
    (n: nat, t: State) => WellFormed(t) && |t.slots| == |s.slots| && |t.jobs| == |s.jobs| && StepPassed(s, n, t)
  }

  lemma StepMoves(s: State, n: nat)
    requires Inv(s) && n < |s.slots|
    ensures OpMoves(StepPassedBy(s), n, Step(n))
  {
    var P := StepPassedBy(s);
    forall u | P(n, u)
      ensures P(n + 1, Do(u, Step(n)))
    {
      StepPassNext(s, n, u);
    }
  }

  lemma StepPass(s: State, n: nat)
    requires Inv(s) && n <= |s.slots|
    ensures StepPassed(s, n, DoTo(s, StepOps(|s.slots|), n))
  {
    StepPassBegin(s);
    forall i: nat | i < n
      ensures OpMoves(StepPassedBy(s), i, Step(i))
    {
      StepMoves(s, i);
    }
    DoToMoves(StepPassedBy(s), s, StepOps(|s.slots|), n);
  }

  ghost predicate AgePassed(s: State, n: nat, t: State)
    requires WellFormed(s) && WellFormed(t) && |t.slots| == |s.slots| && |t.jobs| == |s.jobs|
  {
    && t.slots == s.slots && t.queueend == s.queueend
    && (forall k | 0 <= k < |s.jobs| ::
          t.jobs[k] == if HeldBelow(s, n, k) then AgeJob(s.jobs[k]) else s.jobs[k])
  }

  lemma AgePassNext(s: State, n: nat, u: State)
    requires Inv(s) && WellFormed(u) && |u.slots| == |s.slots| && |u.jobs| == |s.jobs|
    requires n < |s.slots| && AgePassed(s, n, u)
    ensures AgePassed(s, n + 1, AgeSlot(u, n))
  {
    HeldBelowNext(s, n);
  }

  lemma AgePassBegin(s: State)
    requires WellFormed(s)
    ensures AgePassed(s, 0, s)
  {
  }

  ghost function AgePassedBy(s: State): (nat, State) -> bool
    requires WellFormed(s)
  {
    (n: nat, t: State) => WellFormed(t) && |t.slots| == |s.slots| && |t.jobs| == |s.jobs| && AgePassed(s, n, t)
  }

  lemma AgeMoves(s: State, n: nat)
    requires Inv(s) && n < |s.slots|
    ensures OpMoves(AgePassedBy(s), n, Age(n))
  {
    var P := AgePassedBy(s);
    forall u | P(n, u)
      ensures P(n + 1, Do(u, Age(n)))
    {
      AgePassNext(s, n, u);
    }
  }

  lemma AgePass(s: State, n: nat)
    requires Inv(s) && n <= |s.slots|
    ensures AgePassed(s, n, DoTo(s, AgeOps(|s.slots|), n))
  {
    AgePassBegin(s);
    forall i: nat | i < n
      ensures OpMoves(AgePassedBy(s), i, Age(i))
    {
      AgeMoves(s, i);
    }
    DoToMoves(AgePassedBy(s), s, AgeOps(|s.slots|), n);
  }

  /** `allstep`, job by job. */
  lemma AllStepEffect(s: State)
    requires Inv(s)
    ensures var t := AllStep(s);
      && Inv(t) && s.queueend <= t.queueend
      && (forall i | 0 <= i < |s.slots| ::
            t.slots[i] == s.slots[i] || (s.slots[i].Some? && !t.jobs[s.slots[i].value].active))
      && (forall k | 0 <= k < |s.jobs| :: t.jobs[k] == if Running(s, k) then Stepped(s.jobs[k]) else s.jobs[k])
  {
    TickKeepsInv(s, []);
    StepPass(s, |s.slots|);
    forall k | 0 <= k < |s.jobs|
      ensures HeldBelow(s, |s.slots|, k) == Running(s, k)
    {
      if Running(s, k) {
        var i :| Holds(s, i, k);
      }
    }
  }

  /** `allage`, job by job. */
  lemma AllAgeEffect(s: State)
    requires Inv(s)
    ensures var t := AllAge(s);
      && Inv(t) && t.slots == s.slots && t.queueend == s.queueend
      && (forall k | 0 <= k < |s.jobs| :: t.jobs[k] == if Running(s, k) then AgeJob(s.jobs[k]) else s.jobs[k])
  {
    DoToKeepsInv(s, AgeOps(|s.slots|), |s.slots|);
    AgePass(s, |s.slots|);
    forall k | 0 <= k < |s.jobs|
      ensures HeldBelow(s, |s.slots|, k) == Running(s, k)
    {
      if Running(s, k) {
        var i :| Holds(s, i, k);
      }
    }
  }

  lemma {:induction false} ExpiringCounts(pages: seq<int>, n: nat, p: nat)
    requires p < n <= |pages| && pages[p] == -PAGEWAIT
    ensures ExpiringTo(pages, n) > 0
  {
    if p < n - 1 {
      ExpiringCounts(pages, n - 1, p);
    }
  }

  lemma AgedFrames(j: Job)
    requires ValidJob(j)
    ensures FrameCount(AgeJob(j)) <= FrameCount(j)
    ensures forall p | 0 <= p < MAXPROCPAGES && j.pages[p] == -PAGEWAIT :: FrameCount(AgeJob(j)) < FrameCount(j)
  {
    AgeFrames(j);
    forall p | 0 <= p < MAXPROCPAGES && j.pages[p] == -PAGEWAIT
      ensures FrameCount(AgeJob(j)) < FrameCount(j)
    {
      ExpiringCounts(j.pages, |j.pages|, p);
    }
  }

  /** A page at the end of its way out gives a frame back. */
  lemma AgingFreesFrame(s: State, i: int, k: nat, p: nat)
    requires Inv(s) && Holds(s, i, k) && p < MAXPROCPAGES && s.jobs[k].pages[p] == -PAGEWAIT
    ensures AllAge(s).avail > s.avail
  {
    AllAgeEffect(s);
    assert Running(s, k);
    forall m | 0 <= m < |s.jobs|
      ensures FrameCount(AllAge(s).jobs[m]) <= FrameCount(s.jobs[m])
    {
      AgedFrames(s.jobs[m]);
    }
    AgedFrames(s.jobs[k]);
    FewerFrames(s, AllAge(s), k);
  }

  /** One job's share of a tick. */
  lemma TickOfJob(s: State, k: nat)
    requires Inv(s) && k < |s.jobs|
    ensures var u := AllStep(s);
      && Inv(u) && Inv(Tick(s))
      && u.jobs[k] == (if Running(s, k) then Stepped(s.jobs[k]) else s.jobs[k])
      && Tick(s).jobs[k] == (if Running(u, k) then AgeJob(u.jobs[k]) else u.jobs[k])
      && Tick(s).slots == u.slots
  {
    AllStepEffect(s);
    AllAgeEffect(AllStep(s));
  }

  /** A job that stays active stays in its slot. */
  lemma TickKeepsSlot(s: State, i: int, k: nat)
    requires Inv(s) && Holds(s, i, k) && Tick(s).jobs[k].active
    ensures Holds(AllStep(s), i, k) && Holds(Tick(s), i, k)
  {
    TickOfJob(s, k);
    AllStepEffect(s);
  }

  /** A job that enters a slot in `allstep` comes fresh from the queue. */
  lemma NewcomerIsFresh(s: State, i: nat)
    requires Inv(s) && i < |s.slots|
    requires AllStep(s).slots[i].Some? && AllStep(s).slots[i] != s.slots[i]
    ensures FreshJob(AllStep(s).jobs[AllStep(s).slots[i].value])
  {
    NewcomerIsNew(s, i, AllStep(s).slots[i].value);
    AllStepEffect(s);
  }

  lemma NewcomerIsNew(s: State, i: nat, k: nat)
    requires Inv(s) && Holds(AllStep(s), i, k) && AllStep(s).slots[i] != s.slots[i]
    ensures k < |s.jobs| && !Running(s, k) && AllStep(s).jobs[k].active
  {
    AllStepEffect(s);
    forall j
      ensures !Holds(s, j, k)
    {
      WasElsewhere(s, AllStep(s), i, j, k);
    }
  }

  lemma WasElsewhere(s: State, t: State, i: nat, j: int, k: nat)
    requires WellFormed(t) && SlotsInv(t) && |t.slots| == |s.slots| && Holds(t, i, k) && t.slots[i] != s.slots[i]
    requires 0 <= j < |s.slots| ==>
      t.slots[j] == s.slots[j] || (s.slots[j].Some? && s.slots[j].value < |t.jobs| && !t.jobs[s.slots[j].value].active)
    ensures k < |t.jobs| && t.jobs[k].active && !Holds(s, j, k)
  {
  }

  // ---------- Ticks in which no job can compute ----------

  /** Every running job waits for its page. */
  ghost predicate Stalled(s: State)
    requires WellFormed(s)
  {
    forall k | 0 <= k < |s.jobs| && Running(s, k) :: Timer(s.jobs[k]) != 0
  }

  function Waited(j: Job): (r: Job)
    requires ValidJob(j)
    ensures ValidJob(r)
  {
    AgeJob(j.(block := j.block + 1))
  }

  lemma StalledStep(s: State)
    requires Inv(s) && Stalled(s)
    ensures var t := AllStep(s); Inv(t) && t.slots == s.slots && t.queueend == s.queueend
    ensures forall k | 0 <= k < |s.jobs| ::
      AllStep(s).jobs[k] == if Running(s, k) then s.jobs[k].(block := s.jobs[k].block + 1) else s.jobs[k]
  {
    AllStepEffect(s);
    var t := AllStep(s);
    forall i | 0 <= i < |s.slots|
      ensures t.slots[i] == s.slots[i]
    {
      if s.slots[i].Some? {
        assert Holds(s, i, s.slots[i].value);
      }
    }
    var k := s.queueend;
    if k < |s.jobs| {
      RunningIsDequeued(s, k);
      RunningIsDequeued(t, k);
      SameSlots(s, t, k);
    }
  }

  lemma RunningIsDequeued(s: State, k: nat)
    requires Inv(s) && k < |s.jobs| && s.jobs[k].active
    ensures Running(s, k) <==> k < s.queueend
  {
    if Running(s, k) {
      var i :| Holds(s, i, k);
    }
  }

  lemma SameSlots(s: State, t: State, k: nat)
    requires t.slots == s.slots
    ensures Running(s, k) <==> Running(t, k)
  {
    if Running(s, k) {
      var i :| Holds(s, i, k);
      assert Holds(t, i, k);
    }
    if Running(t, k) {
      var i :| Holds(t, i, k);
      assert Holds(s, i, k);
    }
  }

  /** In a stalled tick slots keep their jobs, and every running job only waits and ages. */
  lemma StalledTick(s: State)
    requires Inv(s) && Stalled(s)
    ensures Inv(Tick(s)) && Tick(s).slots == s.slots && Tick(s).queueend == s.queueend
    ensures forall k | 0 <= k < |s.jobs| ::
      Tick(s).jobs[k] == if Running(s, k) then Waited(s.jobs[k]) else s.jobs[k]
  {
    StalledStep(s);
    AllAgeEffect(AllStep(s));
    forall k | 0 <= k < |s.jobs|
      ensures Running(AllStep(s), k) == Running(s, k)
    {
      if Running(s, k) {
        var i :| Holds(s, i, k);
        assert Holds(AllStep(s), i, k);
      }
      if Running(AllStep(s), k) {
        var i :| Holds(AllStep(s), i, k);
        assert Holds(s, i, k);
      }
    }
  }
}
