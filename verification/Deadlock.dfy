/** The deadlock detector: what its alarm means, and when it is raised. */
module Deadlock {
  import opened Machine
  import opened Simulation
  import opened Invariants
  import opened Effects
  import opened Transparency

  /** `allblocked`: some slot is occupied, and every occupied slot's current page is out. */
  predicate AllBlocked(s: State)
    requires WellFormed(s)
  {
    && (exists i :: 0 <= i < |s.slots| && Occupied(s, i))
    && forall i | 0 <= i < |s.slots| && Occupied(s, i) :: Timer(s.jobs[s.slots[i].value]) < -PAGEWAIT
  }

  // ---------- The alarm is right ----------

  /** The job has neither computed nor moved, and its page is still out if it was. */
  ghost predicate Stuck(j: Job, j': Job)
    requires ValidJob(j) && ValidJob(j')
  {
    && j'.program == j.program && j'.control == j.control && j'.compute == j.compute && j'.active == j.active
    && (Timer(j) < -PAGEWAIT ==> Timer(j') < -PAGEWAIT)
  }

  ghost predicate NoProgress(s: State, t: State)
    requires WellFormed(s) && WellFormed(t)
  {
    && t.slots == s.slots && t.queueend == s.queueend && |t.jobs| == |s.jobs|
    && forall k | 0 <= k < |s.jobs| :: Stuck(s.jobs[k], t.jobs[k])
  }

  lemma NoProgressKeepsAlarm(s: State, t: State)
    requires WellFormed(s) && WellFormed(t) && NoProgress(s, t) && AllBlocked(s)
    ensures AllBlocked(t)
  {
    var i :| 0 <= i < |s.slots| && Occupied(s, i);
    assert Occupied(t, i);
    forall j | 0 <= j < |t.slots| && Occupied(t, j)
      ensures Timer(t.jobs[t.slots[j].value]) < -PAGEWAIT
    {
      assert Occupied(s, j);
    }
  }

  lemma BlockedJobIsStuck(s: State, i: nat, k: nat)
    requires WellFormed(s) && Holds(s, i, k) && s.jobs[k].active && Timer(s.jobs[k]) < -PAGEWAIT
    ensures NoProgress(s, StepSlot(s, i))
  {
    assert StepSlot(s, i) == PutJob(s, k, s.jobs[k].(block := s.jobs[k].block + 1));
  }

  lemma AlarmedStep(s: State, i: nat)
    requires Inv(s) && AllBlocked(s) && i < |s.slots|
    ensures NoProgress(s, StepSlot(s, i))
  {
    if s.slots[i].None? {
      assert StepSlot(s, i) == s;
    } else {
      assert Occupied(s, i);
      BlockedJobIsStuck(s, i, s.slots[i].value);
    }
  }

  lemma AlarmedAge(s: State, i: nat)
    requires WellFormed(s) && i < |s.slots|
    ensures NoProgress(s, AgeSlot(s, i))
  {
  }

  lemma AlarmedOut(s: State, i: int, p: int)
    requires WellFormed(s)
    ensures NoProgress(s, PageOut(s, i, p).0)
  {
  }

  lemma NoProgressTrans(s: State, t: State, u: State)
    requires WellFormed(s) && WellFormed(t) && WellFormed(u) && NoProgress(s, t) && NoProgress(t, u)
    ensures NoProgress(s, u)
  {
  }

  /** The state `t` is reached from `s` without progress, and the alarm is on. */
  ghost predicate Alarmed(s: State, t: State)
    requires WellFormed(s)
  {
    Inv(t) && AllBlocked(t) && NoProgress(s, t)
  }

  lemma AlarmedNoProgress(t: State, o: Op)
    requires Inv(t) && AllBlocked(t) && !o.In?
    ensures NoProgress(t, Do(t, o))
  {
    match o {
      case Step(i) =>
        if i < |t.slots| {
          AlarmedStep(t, i);
        }
      case Age(i) =>
        if i < |t.slots| {
          AlarmedAge(t, i);
        }
      case Out(i, p) =>
        AlarmedOut(t, i, p);
    }
  }

  lemma AlarmedDo(s: State, t: State, o: Op)
    requires WellFormed(s) && Alarmed(s, t) && !o.In?
    ensures Alarmed(s, Do(t, o))
  {
    DoKeepsInv(t, o);
    AlarmedNoProgress(t, o);
    NoProgressKeepsAlarm(t, Do(t, o));
    NoProgressTrans(s, t, Do(t, o));
  }

  ghost predicate NoPageIn(calls: seq<seq<Op>>) {
    forall t, c | 0 <= t < |calls| && 0 <= c < |calls[t]| :: !calls[t][c].In?
  }

  ghost function AlarmedFrom(s: State): State -> bool
    requires WellFormed(s)
  {
    t => Alarmed(s, t)
  }

  lemma OpsKeepAlarm(s: State, o: Op)
    requires WellFormed(s) && !o.In?
    ensures Keeps(AlarmedFrom(s), o)
  {
    forall t | Alarmed(s, t)
      ensures Alarmed(s, Do(t, o))
    {
      AlarmedDo(s, t, o);
    }
  }

  /**
   Once the alarm is raised, no job computes or moves, and the alarm stays on, along any
   continuation in which the pager makes no `pagein` call.
   */
  lemma AlarmIsRight(s: State, calls: seq<seq<Op>>, n: nat)
    requires Inv(s) && AllBlocked(s) && n <= |calls| && NoPageIn(calls)
    ensures AllBlocked(Run(s, calls, n)) && NoProgress(s, Run(s, calls, n))
  {
    assert Alarmed(s, s);
    AlarmedRun(AlarmedFrom(s), s, calls, n);
    assert Alarmed(s, Run(s, calls, n));
  }

  lemma TurnsKeepAlarm(s: State, P: State -> bool)
    requires WellFormed(s) && P == AlarmedFrom(s)
    ensures TurnsKeep(P)
  {
    forall i: nat
      ensures Keeps(P, Step(i)) && Keeps(P, Age(i))
    {
      OpsKeepAlarm(s, Step(i));
      OpsKeepAlarm(s, Age(i));
    }
  }

  lemma AlarmedRun(P: State -> bool, s: State, calls: seq<seq<Op>>, n: nat)
    requires WellFormed(s) && P == AlarmedFrom(s) && P(s) && n <= |calls| && NoPageIn(calls)
    ensures P(Run(s, calls, n))
  {
    TurnsKeepAlarm(s, P);
    forall t, c | 0 <= t < n && 0 <= c < |calls[t]|
      ensures Keeps(P, calls[t][c])
    {
      OpsKeepAlarm(s, calls[t][c]);
    }
    RunKeeps(P, s, calls, n);
  }

  // ---------- The alarm is raised ----------

  /** `n` ticks in which the pager stays silent. */
  function Quiet(s: State, n: nat): (r: State)
    requires WellFormed(s)
    ensures WellFormed(r) && |r.slots| == |s.slots| && |r.jobs| == |s.jobs|
    decreases n
  {
    if n == 0 then s else Quiet(Tick(s), n - 1)
  }

  /** The timers of all current pages are at most `v`. */
  ghost predicate TimersAtMost(s: State, v: int)
    requires WellFormed(s)
  {
    forall k | 0 <= k < |s.jobs| && Running(s, k) :: Timer(s.jobs[k]) <= v
  }

  lemma DoomedJob(s: State, v: int, k: nat)
    requires Inv(s) && TimersAtMost(s, v) && OUT <= v < 0 && Stalled(s) && k < |s.jobs| && Running(Tick(s), k)
    ensures Timer(Tick(s).jobs[k]) <= if v == OUT then OUT else v - 1
  {
    StalledTick(s);
    SameSlots(s, Tick(s), k);
  }

  lemma DoomedTick(s: State, v: int)
    requires Inv(s) && TimersAtMost(s, v) && OUT <= v < 0
    ensures Inv(Tick(s)) && Tick(s).slots == s.slots && Compute(Tick(s)) == Compute(s)
    ensures TimersAtMost(Tick(s), if v == OUT then OUT else v - 1)
    ensures forall k | 0 <= k < |s.jobs| :: Tick(s).jobs[k].active == s.jobs[k].active
  {
    StalledTick(s);
    assert Computes(Tick(s).jobs) == Computes(s.jobs);
    forall k | 0 <= k < |s.jobs| && Running(Tick(s), k)
      ensures Timer(Tick(s).jobs[k]) <= if v == OUT then OUT else v - 1
    {
      DoomedJob(s, v, k);
    }
  }

  /** Left alone from `s`, with all timers at most `v` at first. */
  ghost predicate Doomed(s: State, v: int, n: int, t: State)
    requires WellFormed(s)
  {
    && Inv(t) && t.slots == s.slots && Compute(t) == Compute(s) && |t.jobs| == |s.jobs|
    && TimersAtMost(t, if v - n <= OUT then OUT else v - n)
    && forall k | 0 <= k < |s.jobs| :: t.jobs[k].active == s.jobs[k].active
  }

  ghost function DoomedFrom(s: State, v: int): (int, State) -> bool
    requires WellFormed(s)
  {
    (n, t) => n >= 0 && Doomed(s, v, n, t)
  }

  /** A silent tick leads from `P` of `n` ticks to `P` of `n + 1`. */
  ghost predicate QuietMove(P: (int, State) -> bool, n: int) {
    forall t | P(n, t) :: WellFormed(t) && P(n + 1, Tick(t))
  }

  lemma QuietMoveOnce(P: (int, State) -> bool, s: State, m: int)
    requires WellFormed(s) && P(m, s) && QuietMove(P, m)
    ensures P(m + 1, Tick(s))
  {
  }

  ghost predicate AllQuietMoves(P: (int, State) -> bool) {
    forall n :: QuietMove(P, n)
  }

  lemma {:induction false} QuietMoves(P: (int, State) -> bool, s: State, m: int, n: nat, end: int)
    requires WellFormed(s) && P(m, s) && AllQuietMoves(P) && end == m + n
    ensures P(end, Quiet(s, n))
    decreases n
  {
    if n > 0 {
      QuietMoveOnce(P, s, m);
      QuietMoves(P, Tick(s), m + 1, n - 1, end);
    }
  }

  lemma DoomedNext(s: State, v: int, n: int, t: State)
    requires WellFormed(s) && n >= 0 && OUT <= v < 0 && Doomed(s, v, n, t)
    ensures Doomed(s, v, n + 1, Tick(t))
  {
    DoomedTick(t, if v - n <= OUT then OUT else v - n);
  }

  lemma DoomedMoves(s: State, v: int)
    requires WellFormed(s) && OUT <= v < 0
    ensures AllQuietMoves(DoomedFrom(s, v))
  {
    var P := DoomedFrom(s, v);
    forall i
      ensures QuietMove(P, i)
    {
      forall t | P(i, t)
        ensures P(i + 1, Tick(t))
      {
        DoomedNext(s, v, i, t);
      }
    }
  }

  /** If all current pages are out or leaving, nothing computes and all of them end up out. */
  lemma DoomedRun(s: State, v: int, n: nat)
    requires Inv(s) && TimersAtMost(s, v) && OUT <= v < 0
    ensures Doomed(s, v, n, Quiet(s, n))
  {
    DoomedMoves(s, v);
    QuietMoves(DoomedFrom(s, v), s, 0, n, n);
  }

  lemma QuietTick(s: State)
    requires Inv(s)
    ensures Inv(Tick(s)) && Compute(s) <= Compute(Tick(s))
    ensures !Stalled(s) ==> Compute(s) < Compute(Tick(s))
  {
    TickKeepsInv(s, []);
    TickComputes(s, []);
  }

  ghost function NotBelow(v: int): (int, State) -> bool {
    (n, t) => Inv(t) && Compute(t) >= v
  }

  lemma QuietComputes(s: State, n: nat)
    requires Inv(s)
    ensures Compute(s) <= Compute(Quiet(s, n))
  {
    var P := NotBelow(Compute(s));
    forall i
      ensures QuietMove(P, i)
    {
      forall t | P(i, t)
        ensures P(i + 1, Tick(t))
      {
        QuietTick(t);
      }
    }
    QuietMoves(P, s, 0, n, n);
    assert P(n, Quiet(s, n));
  }

  /** A page that is in, or on its way in, lets its job compute. */
  lemma {:induction false} ArrivalComputes(s: State, k: nat)
    requires Inv(s) && k < |s.jobs| && Running(s, k) && Timer(s.jobs[k]) >= 0
    ensures Compute(s) < Compute(Quiet(s, Timer(s.jobs[k]) + 1))
    decreases Timer(s.jobs[k])
  {
    var v := Timer(s.jobs[k]);
    QuietTick(s);
    if Stalled(s) {
      StalledTick(s);
      var i :| Holds(s, i, k);
      assert Holds(Tick(s), i, k);
      ArrivalComputes(Tick(s), k);
    } else {
      QuietComputes(Tick(s), v);
    }
  }

  /**
   Left alone, the machine never computes again exactly when every current page is out or
   leaving; and then the alarm is raised within PAGEWAIT ticks.
   */
  lemma AlarmIsRaised(s: State)
    requires Inv(s) && exists i :: 0 <= i < |s.slots| && Occupied(s, i)
    ensures (forall n: nat :: Compute(Quiet(s, n)) == Compute(s)) <==> TimersAtMost(s, -1)
    ensures TimersAtMost(s, -1) ==> AllBlocked(Quiet(s, PAGEWAIT))
  {
    if TimersAtMost(s, -1) {
      forall n: nat
        ensures Compute(Quiet(s, n)) == Compute(s)
      {
        DoomedRun(s, -1, n);
      }
      DoomedRun(s, -1, PAGEWAIT);
      AllOutIsBlocked(s, Quiet(s, PAGEWAIT));
    } else {
      var k :| 0 <= k < |s.jobs| && Running(s, k) && Timer(s.jobs[k]) > -1;
      ArrivalComputes(s, k);
    }
  }

  lemma AllOutIsBlocked(s: State, t: State)
    requires WellFormed(s) && WellFormed(t) && t.slots == s.slots && |t.jobs| == |s.jobs|
    requires forall k | 0 <= k < |s.jobs| :: t.jobs[k].active == s.jobs[k].active
    requires exists i :: 0 <= i < |s.slots| && Occupied(s, i)
    requires TimersAtMost(t, OUT)
    ensures AllBlocked(t)
  {
    var i :| 0 <= i < |s.slots| && Occupied(s, i);
    assert Occupied(t, i);
    forall j | 0 <= j < |t.slots| && Occupied(t, j)
      ensures Timer(t.jobs[t.slots[j].value]) < -PAGEWAIT
    {
      assert Holds(t, j, t.slots[j].value);
    }
  }
  // ---------- The tick at which it is raised ----------

  /** `n` silent ticks after `s`, when no job could compute: every current page is `n` ticks further on its way. */
  ghost predicate Faded(s: State, n: int, t: State)
    requires WellFormed(s)
  {
    && Inv(t) && t.slots == s.slots && |t.jobs| == |s.jobs|
    && forall k | 0 <= k < |s.jobs| ::
         && t.jobs[k].active == s.jobs[k].active
         && (Running(s, k) ==> Timer(t.jobs[k]) == if Timer(s.jobs[k]) - n <= OUT then OUT else Timer(s.jobs[k]) - n)
  }

  lemma FadedJob(s: State, n: int, t: State, k: nat)
    requires WellFormed(s) && n >= 0 && TimersAtMost(s, -1) && Faded(s, n, t) && Stalled(t) && k < |s.jobs|
    ensures Tick(t).jobs[k].active == s.jobs[k].active
    ensures Running(s, k) ==>
      Timer(Tick(t).jobs[k]) == if Timer(s.jobs[k]) - (n + 1) <= OUT then OUT else Timer(s.jobs[k]) - (n + 1)
  {
    StalledTick(t);
    SameSlots(s, t, k);
  }

  lemma FadedIsStalled(s: State, n: int, t: State)
    requires WellFormed(s) && n >= 0 && TimersAtMost(s, -1) && Faded(s, n, t)
    ensures Stalled(t)
  {
    forall k | 0 <= k < |t.jobs| && Running(t, k)
      ensures Timer(t.jobs[k]) != 0
    {
      SameSlots(s, t, k);
    }
  }

  lemma FadedNext(s: State, n: int, t: State)
    requires WellFormed(s) && n >= 0 && TimersAtMost(s, -1) && Faded(s, n, t)
    ensures Faded(s, n + 1, Tick(t))
  {
    FadedIsStalled(s, n, t);
    StalledTick(t);
    forall k | 0 <= k < |s.jobs|
      ensures Tick(t).jobs[k].active == s.jobs[k].active
      ensures Running(s, k) ==>
        Timer(Tick(t).jobs[k]) == if Timer(s.jobs[k]) - (n + 1) <= OUT then OUT else Timer(s.jobs[k]) - (n + 1)
    {
      FadedJob(s, n, t, k);
    }
  }

  ghost function FadedFrom(s: State): (int, State) -> bool
    requires WellFormed(s)
  {
    (n, t) => n >= 0 && Faded(s, n, t)
  }

  lemma FadedStep(s: State, n: int, t: State)
    requires WellFormed(s) && TimersAtMost(s, -1) && FadedFrom(s)(n, t)
    ensures WellFormed(t) && FadedFrom(s)(n + 1, Tick(t))
  {
    FadedNext(s, n, t);
  }

  lemma FadedMoves(s: State)
    requires WellFormed(s) && TimersAtMost(s, -1)
    ensures AllQuietMoves(FadedFrom(s))
  {
    var P := FadedFrom(s);
    forall i
      ensures QuietMove(P, i)
    {
      forall t | P(i, t)
        ensures WellFormed(t) && P(i + 1, Tick(t))
      {
        FadedStep(s, i, t);
      }
    }
  }

  lemma FadedRun(s: State, n: nat)
    requires Inv(s) && TimersAtMost(s, -1)
    ensures Faded(s, n, Quiet(s, n))
  {
    FadedMoves(s);
    assert FadedFrom(s)(0, s);
    QuietMoves(FadedFrom(s), s, 0, n, n);
  }

  /**
   If every current page is out or on its way out, the alarm is on after `n` silent ticks if and only if none of
   them is still on its way out then.
   */
  lemma AlarmComesAt(s: State, n: nat)
    requires Inv(s) && (exists i :: 0 <= i < |s.slots| && Occupied(s, i)) && TimersAtMost(s, -1)
    ensures AllBlocked(Quiet(s, n))
       <==> forall k | 0 <= k < |s.jobs| && Running(s, k) :: n > PAGEWAIT + Timer(s.jobs[k])
  {
    var t := Quiet(s, n);
    FadedRun(s, n);
    if AllBlocked(t) {
      forall k | 0 <= k < |s.jobs| && Running(s, k)
        ensures n > PAGEWAIT + Timer(s.jobs[k])
      {
        var i :| Holds(s, i, k);
        assert Occupied(t, i);
      }
    } else if forall k | 0 <= k < |s.jobs| && Running(s, k) :: n > PAGEWAIT + Timer(s.jobs[k]) {
      AllFaded(s, t, n);
    }
  }

  lemma AllFaded(s: State, t: State, n: nat)
    requires WellFormed(s) && Faded(s, n, t) && exists i :: 0 <= i < |s.slots| && Occupied(s, i)
    requires forall k | 0 <= k < |s.jobs| && Running(s, k) :: n > PAGEWAIT + Timer(s.jobs[k])
    ensures AllBlocked(t)
  {
    forall k | 0 <= k < |t.jobs| && Running(t, k)
      ensures Timer(t.jobs[k]) <= OUT
    {
      SameSlots(s, t, k);
    }
    AllOutIsBlocked(s, t);
  }
}
