/**
 Schedules without spurious wake-ups, for every set of files and every number of threads. One
 requester and one resolver do all the work. Then the last broadcast either wakes a resolver
 to an empty buffer, or comes just before that resolver begins to wait.
 */
module LookupSchedules {
  import opened Machine
  import opened Lookup
  import opened LookupFiles
  import opened LookupBuffer
  import opened LookupHazards

  /** No thread wakes for no reason. */
  ghost predicate Calm(schedule: seq<Event>) {
    forall i | 0 <= i < |schedule| :: schedule[i].Go?
  }

  /** Some calm schedule leads from `s` to `t`. */
  ghost predicate Leads(s: State, t: State)
    requires WellFormed(s)
  {
    exists schedule :: Calm(schedule) && Run(s, schedule, |schedule|) == t
  }

  lemma {:induction false} RunPrefix(s: State, a: seq<Event>, b: seq<Event>, n: nat)
    requires WellFormed(s) && n <= |a| && n <= |b| && forall i | 0 <= i < n :: a[i] == b[i]
    ensures Run(s, a, n) == Run(s, b, n)
  {
    if n > 0 {
      RunPrefix(s, a, b, n - 1);
    }
  }

  lemma OneMoreEvent(s: State, schedule: seq<Event>, e: Event)
    requires WellFormed(s)
    ensures var more := schedule + [e]; Run(s, more, |more|) == Move(Run(s, schedule, |schedule|), e)
  {
    RunPrefix(s, schedule, schedule + [e], |schedule|);
  }

  lemma LeadsHere(s: State)
    requires WellFormed(s)
    ensures Leads(s, s)
  {
    assert Calm([]) && Run(s, [], 0) == s;
  }

  lemma LeadsOn(s0: State, s: State, t: Thread) returns (u: State)
    requires WellFormed(s0) && WellFormed(s) && Leads(s0, s)
    ensures u == Move(s, Go(t, 0)) && WellFormed(u) && Leads(s0, u)
  {
    var schedule :| Calm(schedule) && Run(s0, schedule, |schedule|) == s;
    OneMoreEvent(s0, schedule, Go(t, 0));
    assert Calm(schedule + [Go(t, 0)]);
    u := Move(s, Go(t, 0));
  }

  // ---------- Requester 0 and resolver 0 at work ----------

  /** The other requesters have not begun, the other resolvers neither. */
  ghost predicate At(s: State, q: Requester, a: Resolver, lock: Option<Thread>, roused: set<Thread>, position: int) {
    && WellFormed(s) && |s.requesters| > 0 && |s.resolvers| > 0
    && s.requesters[0] == q && (forall r | 0 < r < |s.requesters| :: s.requesters[r] == Claiming)
    && s.resolvers[0] == a && (forall k | 0 < k < |s.resolvers| :: s.resolvers[k] == Outside)
    && s.lock == lock && s.roused == roused && s.currentPosition == position && s.threadsFinished == 0
  }

  /** The part of the state that only claiming changes. */
  ghost predicate SameJobs(s: State, t: State) {
    && t.lines == s.lines && t.serviced == s.serviced
    && |t.requesters| == |s.requesters| && |t.resolvers| == |s.resolvers|
  }

  lemma {:induction false} Push(s0: State, s: State, f: nat, next: nat, a: Resolver, roused: set<Thread>, d: nat)
    returns (t: State)
    requires WellFormed(s0) && Leads(s0, s)
    requires At(s, Pushing(f, next), a, Some(Req(0)), roused, s.currentPosition) && s.currentPosition >= 0
    requires f < |s.lines| && next + d <= s.lines[f] && s.currentPosition + d <= ARRAYSIZE
    ensures Leads(s0, t) && SameJobs(s, t)
    ensures At(t, Pushing(f, next + d), a, Some(Req(0)), roused, s.currentPosition + d)
    decreases d
  {
    t := s;
    if d > 0 {
      var u := LeadsOn(s0, s, Req(0));
      t := Push(s0, u, f, next + 1, a, roused, d - 1);
    }
  }

  lemma {:induction false} Take(s0: State, s: State, q: Requester, roused: set<Thread>) returns (t: State)
    requires WellFormed(s0) && Leads(s0, s)
    requires At(s, q, Outside, None, roused, s.currentPosition) && s.currentPosition >= 0
    ensures Leads(s0, t) && SameJobs(s, t) && At(t, q, Outside, None, roused, 0)
    decreases s.currentPosition
  {
    t := s;
    if s.currentPosition > 0 {
      var u := LeadsOn(s0, s, Res(0));
      assert At(u, q, Inside, Some(Res(0)), roused, s.currentPosition);
      var v := LeadsOn(s0, u, Res(0));
      t := Take(s0, v, q, roused);
    }
  }

  /** The signal of requester 0 reaches resolver 0 if that one waits, and nobody else. */
  lemma SignalReaches(s: State, q: Requester, a: Resolver, lock: Option<Thread>, position: int)
    requires At(s, q, a, lock, {}, position) && a in {Outside, WaitEmpty}
    ensures SignalEmpty(s.roused, s.resolvers, 0) == if a == WaitEmpty then {Res(0)} else {}
  {
    FirstBlockedResolverIs(s, 0);
    assert a == WaitEmpty <==> Blocked(s, Res(0));
  }

  /** After a signal resolver 0, if it has waited, takes one line and is outside again. */
  lemma TakeAfterSignal(s0: State, s: State, q: Requester, a: Resolver) returns (t: State)
    requires WellFormed(s0) && Leads(s0, s) && a in {Outside, WaitEmpty}
    requires At(s, q, a, None, if a == WaitEmpty then {Res(0)} else {}, s.currentPosition)
    requires s.currentPosition >= 0 && (a == WaitEmpty ==> s.currentPosition > 0)
    ensures Leads(s0, t) && SameJobs(s, t) && At(t, q, Outside, None, {}, 0)
  {
    var u := s;
    if a == WaitEmpty {
      var v := LeadsOn(s0, s, Res(0));
      assert At(v, q, Woken, Some(Res(0)), {}, s.currentPosition);
      u := LeadsOn(s0, v, Res(0));
    }
    t := Take(s0, u, q, {});
  }

  /** The buffer is full: requester 0 waits, resolver 0 empties the buffer, signals and waits in turn. */
  lemma Swap(s0: State, s: State, f: nat, next: nat, a: Resolver) returns (t: State)
    requires WellFormed(s0) && Leads(s0, s) && a in {Outside, WaitEmpty}
    requires At(s, Pushing(f, next), a, Some(Req(0)), {}, ARRAYSIZE) && f < |s.lines| && next < s.lines[f]
    ensures Leads(s0, t) && SameJobs(s, t) && At(t, Pushing(f, next), WaitEmpty, Some(Req(0)), {}, 0)
  {
    SignalReaches(s, Pushing(f, next), a, Some(Req(0)), ARRAYSIZE);
    var u := LeadsOn(s0, s, Req(0));
    assert At(u, WaitFull(f, next), a, None, if a == WaitEmpty then {Res(0)} else {}, ARRAYSIZE);
    var v := TakeAfterSignal(s0, u, WaitFull(f, next), a);
    t := HandBack(s0, v, f, next);
  }

  lemma HandBack(s0: State, s: State, f: nat, next: nat) returns (t: State)
    requires WellFormed(s0) && Leads(s0, s) && f < |s.lines|
    requires At(s, WaitFull(f, next), Outside, None, {}, 0)
    ensures Leads(s0, t) && SameJobs(s, t) && At(t, Pushing(f, next), WaitEmpty, Some(Req(0)), {}, 0)
  {
    var u := LeadsOn(s0, s, Res(0));
    assert At(u, WaitFull(f, next), Inside, Some(Res(0)), {}, 0);
    var v := LeadsOn(s0, u, Res(0));
    assert At(v, WaitFull(f, next), Emptied, Some(Res(0)), {}, 0);
    t := WaitAndWake(s0, v, f, next);
  }

  lemma WaitAndWake(s0: State, s: State, f: nat, next: nat) returns (t: State)
    requires WellFormed(s0) && Leads(s0, s) && f < |s.lines|
    requires At(s, WaitFull(f, next), Emptied, Some(Res(0)), {}, 0)
    ensures Leads(s0, t) && SameJobs(s, t) && At(t, Pushing(f, next), WaitEmpty, Some(Req(0)), {}, 0)
  {
    assert Blocked(s, Req(0));
    var u := LeadsOn(s0, s, Res(0));
    assert At(u, WaitFull(f, next), WaitEmpty, None, {Req(0)}, 0);
    t := LeadsOn(s0, u, Req(0));
  }

  /** Requester 0 leaves its file, and resolver 0 empties the buffer. */
  lemma Leave(s0: State, s: State, f: nat, next: nat, a: Resolver) returns (t: State)
    requires WellFormed(s0) && Leads(s0, s) && a in {Outside, WaitEmpty}
    requires At(s, Pushing(f, next), a, Some(Req(0)), {}, s.currentPosition) && f < |s.lines| && next == s.lines[f]
    requires s.currentPosition >= 0 && (a == WaitEmpty ==> s.currentPosition > 0)
    ensures Leads(s0, t) && SameJobs(s, t) && At(t, Claiming, Outside, None, {}, 0)
  {
    SignalReaches(s, Pushing(f, next), a, Some(Req(0)), s.currentPosition);
    var u := LeadsOn(s0, s, Req(0));
    assert At(u, Claiming, a, None, if a == WaitEmpty then {Res(0)} else {}, s.currentPosition);
    t := TakeAfterSignal(s0, u, Claiming, a);
  }

  /** The rest of a file, however long. */
  lemma {:induction false} PushFile(s0: State, s: State, f: nat, next: nat, a: Resolver) returns (t: State)
    requires WellFormed(s0) && Leads(s0, s) && a in {Outside, WaitEmpty}
    requires At(s, Pushing(f, next), a, Some(Req(0)), {}, 0) && f < |s.lines| && next <= s.lines[f]
    requires a == WaitEmpty ==> next < s.lines[f]
    ensures Leads(s0, t) && SameJobs(s, t) && At(t, Claiming, Outside, None, {}, 0)
    decreases s.lines[f] - next
  {
    var left := s.lines[f] - next;
    var d := if left <= ARRAYSIZE then left else ARRAYSIZE;
    var u := Push(s0, s, f, next, a, {}, d);
    if left <= ARRAYSIZE {
      t := Leave(s0, u, f, next + d, a);
    } else {
      var v := Swap(s0, u, f, next + d, a);
      t := PushFile(s0, v, f, next + d, WaitEmpty);
    }
  }

  /** One file, from the claim to the last line taken. */
  lemma ServeFile(s0: State, s: State, f: nat) returns (t: State)
    requires WellFormed(s0) && Leads(s0, s) && At(s, Claiming, Outside, None, {}, 0)
    requires FirstUnserviced(s.serviced, 0) == Some(f)
    ensures Leads(s0, t) && At(t, Claiming, Outside, None, {}, 0)
    ensures t.serviced == s.serviced[f := true]
    ensures t.lines == s.lines && |t.requesters| == |s.requesters| && |t.resolvers| == |s.resolvers|
  {
    var u := LeadsOn(s0, s, Req(0));
    assert At(u, Locking(f), Outside, None, {}, 0);
    var v := LeadsOn(s0, u, Req(0));
    assert At(v, Pushing(f, 0), Outside, Some(Req(0)), {}, 0);
    t := PushFile(s0, v, f, 0, Outside);
  }

  /** All files. */
  lemma {:induction false} ServeAll(s0: State, s: State) returns (t: State)
    requires WellFormed(s0) && Leads(s0, s) && At(s, Claiming, Outside, None, {}, 0)
    ensures Leads(s0, t) && At(t, Claiming, Outside, None, {}, 0)
    ensures FirstUnserviced(t.serviced, 0) == None
    ensures t.lines == s.lines && |t.requesters| == |s.requesters| && |t.resolvers| == |s.resolvers|
    decreases |s.serviced| - ServicedTo(s.serviced, |s.serviced|)
  {
    match FirstUnserviced(s.serviced, 0)
    case None =>
      t := s;
    case Some(f) =>
      var u := ServeFile(s0, s, f);
      ServicedUpdate(s.serviced, |s.serviced|, f);
      t := ServeAll(s0, u);
  }

  // ---------- The other requesters finish ----------

  /** Nobody waits; all files are serviced; requesters 1 to `n` have finished, requester 0 has not noticed yet. */
  ghost predicate Idle(s: State, a: Resolver, lock: Option<Thread>, n: nat) {
    && WellFormed(s) && n < |s.requesters| && |s.resolvers| > 0
    && s.requesters[0] == Claiming
    && (forall r | 0 < r < |s.requesters| :: s.requesters[r] == if r <= n then Finished else Claiming)
    && s.resolvers[0] == a && (forall k | 0 < k < |s.resolvers| :: s.resolvers[k] == Outside)
    && s.lock == lock && s.roused == {} && s.currentPosition == 0 && s.threadsFinished == n
    && FirstUnserviced(s.serviced, 0) == None
  }

  lemma NobodyToWake(s: State)
    requires s.roused == {} && forall k | 0 <= k < |s.resolvers| :: s.resolvers[k] != WaitEmpty
    ensures BroadcastEmpty(s.roused, s.resolvers) == {}
  {
    forall t | t in BroadcastEmpty(s.roused, s.resolvers)
      ensures t in s.roused
    {
    }
  }

  lemma {:induction false} OthersFinish(s0: State, s: State, n: nat) returns (t: State)
    requires WellFormed(s0) && Leads(s0, s) && Idle(s, Outside, None, n)
    ensures Leads(s0, t) && Idle(t, Outside, None, |s.requesters| - 1)
    ensures |t.requesters| == |s.requesters|
    decreases |s.requesters| - n
  {
    t := s;
    if n + 1 < |s.requesters| {
      NobodyToWake(s);
      var u := LeadsOn(s0, s, Req(n + 1));
      t := OthersFinish(s0, u, n + 1);
    }
  }

  /** All lines are pushed and taken, and one requester is left to find that out. */
  lemma WorkIsDone(lines: seq<nat>, requesters: nat, resolvers: nat) returns (t: State)
    requires |lines| > 0 && requesters > 0 && resolvers > 0
    ensures Leads(Initial(lines, requesters, resolvers), t)
    ensures |t.requesters| == requesters && Idle(t, Outside, None, requesters - 1)
  {
    var s0 := Initial(lines, requesters, resolvers);
    LeadsHere(s0);
    var s := ServeAll(s0, s0);
    t := OthersFinish(s0, s, 0);
  }

  // ---------- The last broadcast ----------

  /** Resolver 0 begins to wait for lines that will not come. */
  lemma ResolverWaits(s0: State, s: State, n: nat) returns (t: State)
    requires WellFormed(s0) && Leads(s0, s) && Idle(s, Emptied, Some(Res(0)), n)
    ensures Leads(s0, t) && Idle(t, WaitEmpty, None, n) && |t.requesters| == |s.requesters|
  {
    NobodyToSignal(s, 0);
    t := LeadsOn(s0, s, Res(0));
  }

  /** Resolver 0 finds the buffer empty while one requester has not finished. */
  lemma ResolverLooks(s0: State, s: State, n: nat) returns (t: State)
    requires WellFormed(s0) && Leads(s0, s) && Idle(s, Outside, None, n)
    ensures Leads(s0, t) && Idle(t, Emptied, Some(Res(0)), n) && |t.requesters| == |s.requesters|
  {
    var u := LeadsOn(s0, s, Res(0));
    assert Idle(u, Inside, Some(Res(0)), n);
    t := LeadsOn(s0, u, Res(0));
  }

  /** The last requester finishes; its broadcast reaches resolver 0 if and only if that one waits. */
  lemma LastOneFinishes(s: State, a: Resolver, lock: Option<Thread>)
    requires |s.requesters| > 0 && Idle(s, a, lock, |s.requesters| - 1)
    ensures var t := Move(s, Go(Req(0), 0));
      && t == SetRequester(s, 0, Finished).(threadsFinished := |s.requesters|, roused := t.roused)
      && t.roused == if a == WaitEmpty then {Res(0)} else {}
  {
    var roused := BroadcastEmpty(s.roused, s.resolvers);
    forall t
      ensures t in roused <==> t == Res(0) && a == WaitEmpty
    {
    }
  }

  /** The state `s` before the last broadcast, and the state `t` after it. */
  ghost predicate WakesByBroadcast(s: State, t: State) {
    && Blocked(s, Res(0)) && s.currentPosition == 0 && s.threadsFinished == |s.requesters| - 1
    && Res(0) in t.roused && t.threadsFinished == |s.requesters|
  }

  /** The buffer is empty, resolver 0 is as given, and it can have the lock. */
  ghost predicate ResolverAt(s: State, a: Resolver) {
    && WellFormed(s) && |s.resolvers| > 0 && s.resolvers[0] == a && s.currentPosition == 0
    && (a == WaitEmpty ==> s.lock.None? && Res(0) in s.roused)
  }

  lemma BroadcastMove(s: State, t: State)
    requires |s.requesters| > 0 && Idle(s, WaitEmpty, None, |s.requesters| - 1) && t == Move(s, Go(Req(0), 0))
    ensures WakesByBroadcast(s, t) && ResolverAt(t, WaitEmpty)
  {
    LastOneFinishes(s, WaitEmpty, None);
  }

  lemma ReturnMove(s: State, t: State)
    requires ResolverAt(s, WaitEmpty) && t == Move(s, Go(Res(0), 0))
    ensures ResolverAt(t, Woken)
  {
  }

  lemma TakeMove(s: State, t: State)
    requires ResolverAt(s, Woken) && t == Move(s, Go(Res(0), 0))
    ensures t.currentPosition == -1
  {
  }

  lemma RunNext(s0: State, schedule: seq<Event>, n: nat, e: Event) returns (s: State, t: State)
    requires WellFormed(s0) && n < |schedule| && schedule[n] == e
    ensures s == Run(s0, schedule, n) && t == Run(s0, schedule, n + 1) && t == Move(s, e)
  {
    s, t := Run(s0, schedule, n), Run(s0, schedule, n + 1);
  }

  lemma RunBroadcast(s0: State, schedule: seq<Event>, n: nat)
    requires WellFormed(s0) && n < |schedule| && schedule[n] == Go(Req(0), 0)
    requires var s := Run(s0, schedule, n); |s.requesters| > 0 && Idle(s, WaitEmpty, None, |s.requesters| - 1)
    ensures var s, t := Run(s0, schedule, n), Run(s0, schedule, n + 1);
      WakesByBroadcast(s, t) && ResolverAt(t, WaitEmpty)
  {
    var s, t := RunNext(s0, schedule, n, Go(Req(0), 0));
    BroadcastMove(s, t);
  }

  lemma RunReturn(s0: State, schedule: seq<Event>, n: nat)
    requires WellFormed(s0) && n < |schedule| && schedule[n] == Go(Res(0), 0)
    requires ResolverAt(Run(s0, schedule, n), WaitEmpty)
    ensures ResolverAt(Run(s0, schedule, n + 1), Woken)
  {
    var s, t := RunNext(s0, schedule, n, Go(Res(0), 0));
    ReturnMove(s, t);
  }

  lemma RunTake(s0: State, schedule: seq<Event>, n: nat)
    requires WellFormed(s0) && n < |schedule| && schedule[n] == Go(Res(0), 0)
    requires ResolverAt(Run(s0, schedule, n), Woken)
    ensures Run(s0, schedule, n + 1).currentPosition == -1
  {
    var s, t := RunNext(s0, schedule, n, Go(Res(0), 0));
    TakeMove(s, t);
  }

  /** Woken by the last broadcast, resolver 0 takes from the empty buffer. */
  lemma BroadcastEnding(s0: State, s: State, schedule: seq<Event>, n: nat)
    requires WellFormed(s0) && |schedule| == n + 3 && Run(s0, schedule, n) == s
    requires schedule[n] == Go(Req(0), 0) && schedule[n + 1] == Go(Res(0), 0) && schedule[n + 2] == Go(Res(0), 0)
    requires |s.requesters| > 0 && Idle(s, WaitEmpty, None, |s.requesters| - 1)
    ensures WakesByBroadcast(s, Run(s0, schedule, n + 1))
    ensures Run(s0, schedule, n + 2).currentPosition == 0 && Run(s0, schedule, n + 3).currentPosition == -1
  {
    RunBroadcast(s0, schedule, n);
    RunReturn(s0, schedule, n + 1);
    RunTake(s0, schedule, n + 2);
  }

  lemma SafeSoFar(s0: State, schedule: seq<Event>, n: nat)
    requires Inv(s0) && n <= |schedule| && Run(s0, schedule, n).currentPosition >= 0
    ensures NoEmptyWake(s0, schedule, n)
  {
    SafeExactly(s0, schedule, n);
  }

  lemma SomeCalm(s0: State, s: State) returns (schedule: seq<Event>)
    requires WellFormed(s0) && Leads(s0, s)
    ensures Calm(schedule) && Run(s0, schedule, |schedule|) == s
  {
    schedule :| Calm(schedule) && Run(s0, schedule, |schedule|) == s;
  }

  /**
   For every set of files and every number of threads, a schedule without a spurious wake-up:
   resolver 0 waits, the buffer is empty, the last requester's finish (move `n`) unblocks it, it
   gets the lock, and takes from position -1. No move before that took from an empty buffer.
   */
  lemma FinalBroadcastUnderflows(lines: seq<nat>, requesters: nat, resolvers: nat)
    returns (schedule: seq<Event>, n: nat)
    requires |lines| > 0 && requesters > 0 && resolvers > 0
    ensures Calm(schedule) && |schedule| == n + 3 && schedule[n] == Go(Req(0), 0)
    ensures var s0 := Initial(lines, requesters, resolvers);
      && WakesByBroadcast(Run(s0, schedule, n), Run(s0, schedule, n + 1))
      && NoEmptyWake(s0, schedule, n + 2)
      && Run(s0, schedule, n + 3).currentPosition == -1
  {
    var s0 := Initial(lines, requesters, resolvers);
    InitialInv(lines, requesters, resolvers);
    var s := WorkIsDone(lines, requesters, resolvers);
    s := ResolverLooks(s0, s, requesters - 1);
    s := ResolverWaits(s0, s, requesters - 1);
    schedule, n := WokenByBroadcast(s0, s);
    SafeSoFar(s0, schedule, n + 2);
  }

  lemma CalmAppend(a: seq<Event>, b: seq<Event>)
    requires Calm(a) && Calm(b)
    ensures Calm(a + b)
  {
  }

  /** Three more moves after a calm schedule. */
  lemma Extend(s0: State, first: seq<Event>) returns (schedule: seq<Event>, n: nat)
    requires WellFormed(s0) && Calm(first)
    ensures Calm(schedule) && |schedule| == n + 3 && n == |first| && Run(s0, schedule, n) == Run(s0, first, n)
    ensures schedule[n] == Go(Req(0), 0) && schedule[n + 1] == Go(Res(0), 0) && schedule[n + 2] == Go(Res(0), 0)
  {
    var last := [Go(Req(0), 0), Go(Res(0), 0), Go(Res(0), 0)];
    n, schedule := |first|, first + last;
    CalmAppend(first, last);
    RunPrefix(s0, first, schedule, n);
  }

  lemma WokenByBroadcast(s0: State, s: State) returns (schedule: seq<Event>, n: nat)
    requires WellFormed(s0) && Leads(s0, s) && |s.requesters| > 0 && Idle(s, WaitEmpty, None, |s.requesters| - 1)
    ensures Calm(schedule) && |schedule| == n + 3 && schedule[n] == Go(Req(0), 0) && Run(s0, schedule, n) == s
    ensures WakesByBroadcast(s, Run(s0, schedule, n + 1))
    ensures Run(s0, schedule, n + 2).currentPosition == 0 && Run(s0, schedule, n + 3).currentPosition == -1
  {
    var first := SomeCalm(s0, s);
    schedule, n := Extend(s0, first);
    BroadcastEnding(s0, s, schedule, n);
  }

  lemma {:induction false} RunAppend(s: State, a: seq<Event>, t: State, b: seq<Event>, n: nat)
    requires WellFormed(s) && n <= |b| && Run(s, a, |a|) == t
    ensures Run(s, a + b, |a| + n) == Run(t, b, n)
  {
    if n == 0 {
      RunPrefix(s, a, a + b, |a|);
    } else {
      RunAppend(s, a, t, b, n - 1);
    }
  }

  /** After `rest`, resolver 0 is still about to wait, or waits. */
  ghost predicate HangsAfter(s: State, schedule: seq<Event>, rest: seq<Event>)
    requires WellFormed(s)
  {
    var t := Run(s, schedule + rest, |schedule| + |rest|);
    |t.resolvers| > 0 && t.resolvers[0] in {Emptied, WaitEmpty}
  }

  /**
   The same with the last broadcast one step earlier: resolver 0 has found the buffer empty and has
   not yet begun to wait. Without spurious wake-ups it then never exits. `HangsAfter` also holds when
   another resolver has made the position negative, after which the model stops.
   */
  lemma MissedBroadcastHangs(lines: seq<nat>, requesters: nat, resolvers: nat) returns (schedule: seq<Event>)
    requires |lines| > 0 && requesters > 0 && resolvers > 0
    ensures Calm(schedule)
    ensures var s0 := Initial(lines, requesters, resolvers);
      && Run(s0, schedule, |schedule|).threadsFinished == requesters
      && NoEmptyWake(s0, schedule, |schedule|)
      && forall rest | Calm(rest) :: HangsAfter(s0, schedule, rest)
  {
    var s0 := Initial(lines, requesters, resolvers);
    InitialInv(lines, requesters, resolvers);
    var s := WorkIsDone(lines, requesters, resolvers);
    s := ResolverLooks(s0, s, requesters - 1);
    LastOneFinishes(s, Emptied, Some(Res(0)));
    var t := LeadsOn(s0, s, Req(0));
    schedule := SomeCalm(s0, t);
    SafeSoFar(s0, schedule, |schedule|);
    RunKeepsFiles(s0, schedule, |schedule|);
    NowMissed(t);
    forall rest | Calm(rest)
      ensures HangsAfter(s0, schedule, rest)
    {
      Hangs(s0, t, schedule, rest);
    }
  }

  lemma NowMissed(t: State)
    requires FilesInv(t)
    requires |t.requesters| > 0 && t.threadsFinished == |t.requesters|
    requires |t.resolvers| > 0 && t.resolvers[0] == Emptied && t.roused == {}
    ensures Missed(t, 0)
  {
  }

  lemma StillMissed(t: State, rest: seq<Event>) returns (u: State)
    requires Missed(t, 0) && Calm(rest)
    ensures u == Run(t, rest, |rest|) && |u.resolvers| > 0 && u.resolvers[0] in {Emptied, WaitEmpty}
  {
    MissedForever(t, 0, rest, |rest|);
    u := Run(t, rest, |rest|);
  }

  lemma HangsThere(s0: State, t: State, schedule: seq<Event>, rest: seq<Event>, u: State)
    requires WellFormed(s0) && Run(s0, schedule, |schedule|) == t && u == Run(t, rest, |rest|)
    requires |u.resolvers| > 0 && u.resolvers[0] in {Emptied, WaitEmpty}
    ensures HangsAfter(s0, schedule, rest)
  {
    RunAppend(s0, schedule, t, rest, |rest|);
  }

  lemma Hangs(s0: State, t: State, schedule: seq<Event>, rest: seq<Event>)
    requires WellFormed(s0) && Run(s0, schedule, |schedule|) == t && Missed(t, 0) && Calm(rest)
    ensures HangsAfter(s0, schedule, rest)
  {
    var u := StillMissed(t, rest);
    HangsThere(s0, t, schedule, rest, u);
  }
}
