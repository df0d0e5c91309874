/**
 Takes from an empty buffer while every requester is still at work, in schedules without spurious wake-ups: a
 signal can be stolen by a second resolver, and a file without lines signals with nothing to take. One
 of the two is needed.
 */
module LookupEarly {
  import opened Machine
  import opened Lookup
  import opened LookupFiles
  import opened LookupBuffer
  import opened LookupHazards
  import opened LookupSchedules
  import opened LookupExits

  /** The position is negative, and no requester has finished. */
  predicate EarlyUnderflow(s: State) {
    s.currentPosition < 0 && s.threadsFinished == 0
  }

  // ---------- A file without lines ----------

  /** Resolver 0 finds the empty buffer and begins to wait. */
  lemma BeginsToWait(s0: State, s: State, q: Requester) returns (t: State)
    requires WellFormed(s0) && Leads(s0, s) && At(s, q, Outside, None, {}, 0) && !q.WaitFull?
    ensures Leads(s0, t) && SameJobs(s, t) && At(t, q, WaitEmpty, None, {}, 0)
  {
    var u := LeadsOn(s0, s, Res(0));
    assert At(u, q, Inside, Some(Res(0)), {}, 0);
    t := LooksAndWaits(s0, u, q);
  }

  lemma LooksAndWaits(s0: State, s: State, q: Requester) returns (t: State)
    requires WellFormed(s0) && Leads(s0, s) && At(s, q, Inside, Some(Res(0)), {}, 0) && !q.WaitFull?
    ensures Leads(s0, t) && SameJobs(s, t) && At(t, q, WaitEmpty, None, {}, 0)
  {
    var u := LeadsOn(s0, s, Res(0));
    assert At(u, q, Emptied, Some(Res(0)), {}, 0);
    NobodyToSignal(u, 0);
    t := LeadsOn(s0, u, Res(0));
  }

  /** Its requester leaves it, and so signals, with nothing pushed. */
  lemma SignalForNothing(s0: State, s: State, f: nat) returns (t: State)
    requires WellFormed(s0) && Leads(s0, s) && At(s, Locking(f), WaitEmpty, None, {}, 0)
    requires f < |s.lines| && s.lines[f] == 0
    ensures Leads(s0, t) && At(t, Claiming, WaitEmpty, None, {Res(0)}, 0)
  {
    var u := LeadsOn(s0, s, Req(0));
    assert At(u, Pushing(f, 0), WaitEmpty, Some(Req(0)), {}, 0);
    SignalReaches(u, Pushing(f, 0), WaitEmpty, Some(Req(0)), 0);
    t := LeadsOn(s0, u, Req(0));
  }

  lemma TakesNothing(s0: State, s: State, q: Requester) returns (t: State)
    requires WellFormed(s0) && Leads(s0, s) && At(s, q, WaitEmpty, None, {Res(0)}, 0)
    ensures Leads(s0, t) && EarlyUnderflow(t)
  {
    var u := LeadsOn(s0, s, Res(0));
    assert At(u, q, Woken, Some(Res(0)), {}, 0);
    t := LeadsOn(s0, u, Res(0));
  }

  lemma EmptyFileNow(s0: State, s: State, f: nat) returns (t: State)
    requires WellFormed(s0) && Leads(s0, s) && At(s, Claiming, Outside, None, {}, 0)
    requires FirstUnserviced(s.serviced, 0) == Some(f) && s.lines[f] == 0
    ensures Leads(s0, t) && EarlyUnderflow(t)
  {
    var u := LeadsOn(s0, s, Req(0));
    assert At(u, Locking(f), Outside, None, {}, 0);
    var v := BeginsToWait(s0, u, Locking(f));
    var w := SignalForNothing(s0, v, f);
    t := TakesNothing(s0, w, Claiming);
  }

  /** The files before it are served first. */
  lemma {:induction false} EmptyFileLater(s0: State, s: State, f: nat) returns (t: State)
    requires WellFormed(s0) && Leads(s0, s) && At(s, Claiming, Outside, None, {}, 0)
    requires f < |s.lines| && s.lines[f] == 0 && !s.serviced[f]
    ensures Leads(s0, t) && EarlyUnderflow(t)
    decreases |s.serviced| - ServicedTo(s.serviced, |s.serviced|)
  {
    var g := FirstUnserviced(s.serviced, 0).value;
    if s.lines[g] == 0 {
      t := EmptyFileNow(s0, s, g);
    } else {
      var u := ServeFile(s0, s, g);
      ServicedUpdate(s.serviced, |s.serviced|, g);
      t := EmptyFileLater(s0, u, f);
    }
  }

  // ---------- A second resolver ----------

  /** Resolver 0 has been signalled for the lines in the buffer, and resolver 1 has not begun. */
  ghost predicate Stealable(s: State) {
    && WellFormed(s) && |s.resolvers| > 1 && s.resolvers[0] == WaitEmpty && Res(0) in s.roused
    && s.resolvers[1] == Outside && s.lock.None? && s.currentPosition > 0 && s.threadsFinished == 0
  }

  /** Resolver 1 takes all lines but one. */
  lemma {:induction false} StealMost(s0: State, s: State) returns (t: State)
    requires WellFormed(s0) && Leads(s0, s) && Stealable(s)
    ensures Leads(s0, t) && Stealable(t) && t.currentPosition == 1
    decreases s.currentPosition
  {
    t := s;
    if s.currentPosition > 1 {
      var u := LeadsOn(s0, s, Res(1));
      var v := LeadsOn(s0, u, Res(1));
      t := StealMost(s0, v);
    }
  }

  lemma SignalNow(s0: State, s: State, f: nat, next: nat) returns (t: State)
    requires WellFormed(s0) && Leads(s0, s) && |s.resolvers| > 1 && f < |s.lines|
    requires At(s, Pushing(f, next), WaitEmpty, Some(Req(0)), {}, s.currentPosition) && s.currentPosition > 0
    requires next == s.lines[f] || s.currentPosition == ARRAYSIZE
    ensures Leads(s0, t) && Stealable(t)
  {
    SignalReaches(s, Pushing(f, next), WaitEmpty, Some(Req(0)), s.currentPosition);
    t := LeadsOn(s0, s, Req(0));
  }

  /** Requester 0 pushes as much of its file as there is room for, and signals. */
  lemma SignalForLines(s0: State, s: State, f: nat) returns (t: State)
    requires WellFormed(s0) && Leads(s0, s) && At(s, Locking(f), WaitEmpty, None, {}, 0)
    requires f < |s.lines| && s.lines[f] > 0 && |s.resolvers| > 1
    ensures Leads(s0, t) && Stealable(t)
  {
    var u := LeadsOn(s0, s, Req(0));
    assert At(u, Pushing(f, 0), WaitEmpty, Some(Req(0)), {}, 0);
    var d := if s.lines[f] <= ARRAYSIZE then s.lines[f] else ARRAYSIZE;
    var v := Push(s0, u, f, 0, WaitEmpty, {}, d);
    t := SignalNow(s0, v, f, d);
  }

  /** With two resolvers the situation of `StolenWakeUp` arises, whatever the files, if the first one has a line. */
  lemma StolenWakeUpArises(lines: seq<nat>, requesters: nat, resolvers: nat) returns (t: State)
    requires |lines| > 0 && requesters > 0 && resolvers > 1 && lines[0] > 0
    ensures Leads(Initial(lines, requesters, resolvers), t) && Stealable(t) && t.currentPosition == 1
  {
    var s0 := Initial(lines, requesters, resolvers);
    LeadsHere(s0);
    var s := LeadsOn(s0, s0, Req(0));
    assert At(s, Locking(0), Outside, None, {}, 0);
    s := BeginsToWait(s0, s, Locking(0));
    s := SignalForLines(s0, s, 0);
    t := StealMost(s0, s);
  }

  lemma StolenUnderflows(s0: State, s: State) returns (t: State)
    requires WellFormed(s0) && Leads(s0, s) && Stealable(s) && s.currentPosition == 1
    ensures Leads(s0, t) && EarlyUnderflow(t)
  {
    var u := LeadsOn(s0, s, Res(1));
    assert u.resolvers[1] == Inside && u.resolvers[0] == WaitEmpty && Res(0) in u.roused;
    var v := LeadsOn(s0, u, Res(1));
    assert v.resolvers[0] == WaitEmpty && Res(0) in v.roused && v.lock.None? && v.currentPosition == 0;
    t := WakesToNothing(s0, v);
  }

  lemma WakesToNothing(s0: State, s: State) returns (t: State)
    requires WellFormed(s0) && Leads(s0, s) && |s.resolvers| > 0 && s.threadsFinished == 0
    requires s.resolvers[0] == WaitEmpty && Res(0) in s.roused && s.lock.None? && s.currentPosition == 0
    ensures Leads(s0, t) && EarlyUnderflow(t)
  {
    var u := LeadsOn(s0, s, Res(0));
    assert u.resolvers[0] == Woken && u.currentPosition == 0 && u.threadsFinished == 0;
    t := LeadsOn(s0, u, Res(0));
  }

  // ---------- Otherwise it cannot happen ----------

  /** A requester that has come to the end of its file has pushed its last line and still has the lock. */
  ghost predicate PushedLast(s: State, r: nat)
    requires WellFormed(s) && r < |s.requesters|
  {
    match s.requesters[r]
    case Pushing(f, next) => next <= s.lines[f] && (next == s.lines[f] ==> s.currentPosition > 0)
    case WaitFull(f, next) => next < s.lines[f]
    case _ => true
  }

  /** The only resolver, once it has been signalled, has something to take. */
  ghost predicate SignalledForLines(s: State) {
    |s.resolvers| == 1 && s.currentPosition >= 0
    && (s.resolvers[0] == Woken || Res(0) in s.roused ==> s.currentPosition > 0)
  }

  ghost predicate OneResolverInv(s: State) {
    && AlwaysInv(s) && (forall f | 0 <= f < |s.lines| :: s.lines[f] > 0)
    && SignalledForLines(s) && forall r | 0 <= r < |s.requesters| :: PushedLast(s, r)
  }

  lemma RequesterKeepsSignalled(s: State, r: nat, pick: nat)
    requires OneResolverInv(s) && r < |s.requesters|
    ensures var t := MoveRequester(s, r, pick); t.threadsFinished == s.threadsFinished ==> SignalledForLines(t)
  {
    assert PushedLast(s, r);
    SignalsReachWaiters(s, pick);
  }

  lemma RequesterKeepsPushed(s: State, r: nat, pick: nat, q: nat)
    requires WellFormed(s) && LockInv(s) && s.currentPosition >= 0 && r < |s.requesters| && q < |s.requesters|
    requires (forall f | 0 <= f < |s.lines| :: s.lines[f] > 0) && PushedLast(s, r) && PushedLast(s, q)
    ensures PushedLast(MoveRequester(s, r, pick), q)
  {
  }

  lemma ResolverKeepsSignalled(s: State, pick: nat)
    requires OneResolverInv(s)
    ensures SignalledForLines(MoveResolver(s, 0, pick))
  {
    FirstBlockedRequesterIs(s, 0);
    assert Res(0) in s.roused ==> Waits(s, Res(0));
  }

  lemma ResolverKeepsPushed(s: State, pick: nat, q: nat)
    requires OneResolverInv(s) && q < |s.requesters|
    ensures PushedLast(MoveResolver(s, 0, pick), q)
  {
    assert PushedLast(s, q);
  }

  /** What calm moves keep while no requester finishes, beside `AlwaysInv`. */
  ghost predicate StepKept(s: State, t: State) {
    && WellFormed(t) && (t.threadsFinished == s.threadsFinished ==> SignalledForLines(t))
    && forall q | 0 <= q < |t.requesters| :: PushedLast(t, q)
  }

  lemma RequesterMoveKeeps(s: State, r: nat, pick: nat)
    requires OneResolverInv(s) && r < |s.requesters|
    ensures StepKept(s, MoveRequester(s, r, pick))
  {
    var t := MoveRequester(s, r, pick);
    RequesterKeepsSignalled(s, r, pick);
    forall q | 0 <= q < |t.requesters|
      ensures PushedLast(t, q)
    {
      RequesterKeepsPushed(s, r, pick, q);
    }
  }

  lemma ResolverMoveKeeps(s: State, pick: nat)
    requires OneResolverInv(s)
    ensures StepKept(s, MoveResolver(s, 0, pick))
  {
    var t := MoveResolver(s, 0, pick);
    ResolverKeepsSignalled(s, pick);
    forall q | 0 <= q < |t.requesters|
      ensures PushedLast(t, q)
    {
      ResolverKeepsPushed(s, pick, q);
    }
  }

  lemma StandingStillKeeps(s: State)
    requires OneResolverInv(s)
    ensures StepKept(s, s)
  {
  }

  lemma OneResolverStep(s: State, t: Thread, pick: nat, u: State)
    requires OneResolverInv(s) && u == Step(s, t, pick)
    ensures StepKept(s, u)
  {
    StandingStillKeeps(s);
    if t.Req? {
      if t.id < |s.requesters| {
        RequesterMoveKeeps(s, t.id, pick);
        assert u == MoveRequester(s, t.id, pick);
      } else {
        assert u == s;
      }
    } else if t.id < |s.resolvers| {
      assert t.id == 0;
      ResolverMoveKeeps(s, pick);
      assert u == MoveResolver(s, 0, pick);
    } else {
      assert u == s;
    }
  }

  lemma OneResolverMove(s: State, e: Event)
    requires OneResolverInv(s) && e.Go?
    ensures Move(s, e).threadsFinished == s.threadsFinished ==> OneResolverInv(Move(s, e))
  {
    MoveKeepsAlways(s, e);
    MoveKeepsShape(s, e);
    OneResolverStep(s, e.thread, e.pick, Move(s, e));
  }

  ghost function FinishedOrSafe(): State -> bool {
    s => WellFormed(s) && (s.threadsFinished > 0 || OneResolverInv(s))
  }

  lemma NeverUnfinished(s: State, e: Event)
    requires WellFormed(s)
    ensures Move(s, e).threadsFinished >= s.threadsFinished
  {
  }

  lemma OneResolverRun(s: State, rest: seq<Event>)
    requires OneResolverInv(s) && Calm(rest)
    ensures FinishedOrSafe()(Run(s, rest, |rest|))
  {
    var P := FinishedOrSafe();
    forall u, e | P(u) && !IsSpurious()(u, e)
      ensures P(Move(u, e))
    {
      NeverUnfinished(u, e);
      if u.threadsFinished == 0 {
        OneResolverMove(u, e);
      }
    }
    CalmKeeps(P, s, rest);
  }

  lemma InitialOneResolver(lines: seq<nat>, requesters: nat)
    requires |lines| > 0 && forall f | 0 <= f < |lines| :: lines[f] > 0
    ensures OneResolverInv(Initial(lines, requesters, 1))
  {
    InitialAlways(lines, requesters, 1);
  }

  // ---------- Exactly when ----------

  ghost predicate CanUnderflowEarly(s: State)
    requires WellFormed(s)
  {
    exists schedule :: Calm(schedule) && EarlyUnderflow(Run(s, schedule, |schedule|))
  }

  lemma EarlyWay(lines: seq<nat>, requesters: nat, resolvers: nat) returns (t: State)
    requires |lines| > 0 && requesters > 0 && resolvers > 0
    requires resolvers > 1 || exists f :: 0 <= f < |lines| && lines[f] == 0
    ensures Leads(Initial(lines, requesters, resolvers), t) && EarlyUnderflow(t)
  {
    var s0 := Initial(lines, requesters, resolvers);
    if f :| 0 <= f < |lines| && lines[f] == 0 {
      LeadsHere(s0);
      t := EmptyFileLater(s0, s0, f);
    } else {
      t := StolenWakeUpArises(lines, requesters, resolvers);
      t := StolenUnderflows(s0, t);
    }
  }

  /**
   Without a spurious wake-up, a resolver can take from an empty buffer before any requester has finished if and only
   if there are two resolvers or some file has no lines.
   */
  lemma EarlyUnderflowExactly(lines: seq<nat>, requesters: nat, resolvers: nat)
    requires |lines| > 0 && requesters > 0 && resolvers > 0
    ensures CanUnderflowEarly(Initial(lines, requesters, resolvers))
       <==> resolvers > 1 || exists f :: 0 <= f < |lines| && lines[f] == 0
  {
    var s0 := Initial(lines, requesters, resolvers);
    if resolvers > 1 || exists f :: 0 <= f < |lines| && lines[f] == 0 {
      var t := EarlyWay(lines, requesters, resolvers);
      var schedule := SomeCalm(s0, t);
      assert EarlyUnderflow(Run(s0, schedule, |schedule|));
    } else {
      InitialOneResolver(lines, requesters);
      forall schedule | Calm(schedule)
        ensures !EarlyUnderflow(Run(s0, schedule, |schedule|))
      {
        OneResolverRun(s0, schedule);
      }
    }
  }
}
