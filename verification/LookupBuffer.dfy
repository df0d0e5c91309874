/**
 The shared stack: conservation and drain, for every schedule in which no resolver takes
 from an empty buffer; exactly those schedules are safe.
 */
module LookupBuffer {
  import opened Machine
  import opened Lookup
  import opened LookupFiles

  /** `buffer_lock` is held by the thread that is inside a critical section. */
  ghost predicate LockInv(s: State) {
    && (forall r | 0 <= r < |s.requesters| :: s.requesters[r].Pushing? ==> s.lock == Some(Req(r)))
    && (forall k | 0 <= k < |s.resolvers| && s.resolvers[k] in {Inside, Emptied, Woken} :: s.lock == Some(Res(k)))
  }

  /** How often the entry has been pushed. */
  function Pushed(progress: seq<nat>, e: Entry): nat {
    if e.file < |progress| && e.line < progress[e.file] then 1 else 0
  }

  /** How often the entry is in the buffer. */
  function Buffered(s: State, e: Entry): nat
    requires 0 <= s.currentPosition <= |s.buffer|
  {
    multiset(s.buffer[..s.currentPosition])[e]
  }

  /** The position stays in range, and everything pushed is either in the buffer or has been taken, once. */
  ghost predicate Conserved(s: State) {
    && 0 <= s.currentPosition <= ARRAYSIZE == |s.buffer|
    && forall e: Entry :: Buffered(s, e) + s.taken[e] == Pushed(s.progress, e)
  }

  /** A resolver exits only after the last push, from an empty buffer. */
  ghost predicate ExitInv(s: State) {
    (exists k :: 0 <= k < |s.resolvers| && s.resolvers[k] == Exited)
    ==> s.threadsFinished == |s.requesters| && s.currentPosition == 0
  }

  ghost predicate Inv(s: State) {
    FilesInv(s) && |s.requesters| > 0 && LockInv(s) && Conserved(s) && ExitInv(s)
  }

  // ---------- Each move keeps it ----------

  lemma RequesterKeepsLock(s: State, r: nat, pick: nat)
    requires WellFormed(s) && LockInv(s) && s.currentPosition >= 0 && r < |s.requesters|
    ensures LockInv(MoveRequester(s, r, pick))
  {
  }

  lemma ResolverKeepsLock(s: State, k: nat, pick: nat)
    requires WellFormed(s) && LockInv(s) && s.currentPosition >= 0 && k < |s.resolvers|
    ensures LockInv(MoveResolver(s, k, pick))
  {
  }

  lemma PushKeepsConserved(s: State, r: nat, f: nat, next: nat, pick: nat)
    requires WellFormed(s) && ProgressInv(s) && Conserved(s)
    requires r < |s.requesters| && s.requesters[r] == Pushing(f, next)
    ensures Conserved(PushLine(s, r, f, next, pick))
  {
    var t := PushLine(s, r, f, next, pick);
    if next < s.lines[f] && s.currentPosition < ARRAYSIZE {
      assert KnowsProgress(s, s.requesters[r]);
      PushedOne(s, t, f, next);
    } else {
      SameStack(s, t);
    }
  }

  lemma PushedOne(s: State, t: State, f: nat, next: nat)
    requires Conserved(s) && s.currentPosition < ARRAYSIZE && f < |s.progress| && s.progress[f] == next
    requires t.buffer == s.buffer[s.currentPosition := Entry(f, next)] && t.currentPosition == s.currentPosition + 1
    requires t.taken == s.taken && t.progress == s.progress[f := next + 1]
    ensures Conserved(t)
  {
    assert t.buffer[..t.currentPosition] == s.buffer[..s.currentPosition] + [Entry(f, next)];
    forall e: Entry
      ensures Buffered(t, e) + t.taken[e] == Pushed(t.progress, e)
    {
      assert Buffered(s, e) + s.taken[e] == Pushed(s.progress, e);
    }
  }

  lemma TakeKeepsConserved(s: State, k: nat)
    requires WellFormed(s) && Conserved(s) && k < |s.resolvers| && s.currentPosition > 0
    ensures Conserved(TakeEntry(s, k))
  {
    var t := TakeEntry(s, k);
    assert s.buffer[..s.currentPosition] == t.buffer[..t.currentPosition] + [s.buffer[t.currentPosition]];
    forall e: Entry
      ensures Buffered(t, e) + t.taken[e] == Pushed(t.progress, e)
    {
      assert Buffered(s, e) + s.taken[e] == Pushed(s.progress, e);
    }
  }

  lemma SameStack(s: State, t: State)
    requires Conserved(s) && t.buffer == s.buffer && t.currentPosition == s.currentPosition
    requires t.taken == s.taken && t.progress == s.progress
    ensures Conserved(t)
  {
    forall e: Entry
      ensures Buffered(t, e) + t.taken[e] == Pushed(t.progress, e)
    {
      assert Buffered(s, e) + s.taken[e] == Pushed(s.progress, e);
    }
  }

  lemma RequesterKeepsConserved(s: State, r: nat, pick: nat)
    requires WellFormed(s) && ProgressInv(s) && Conserved(s) && r < |s.requesters|
    ensures Conserved(MoveRequester(s, r, pick))
  {
    match s.requesters[r]
    case Pushing(f, next) => PushKeepsConserved(s, r, f, next, pick);
    case _ => SameStack(s, MoveRequester(s, r, pick));
  }

  lemma ResolverKeepsConserved(s: State, k: nat, pick: nat)
    requires WellFormed(s) && Conserved(s) && k < |s.resolvers| && !EmptyWake(s, Go(Res(k), pick))
    ensures Conserved(MoveResolver(s, k, pick))
  {
    if s.resolvers[k] in {Inside, Woken} && s.currentPosition != 0 {
      TakeKeepsConserved(s, k);
    } else {
      SameStack(s, MoveResolver(s, k, pick));
    }
  }

  lemma RequesterKeepsExit(s: State, r: nat, pick: nat)
    requires Inv(s) && r < |s.requesters|
    ensures ExitInv(MoveRequester(s, r, pick))
  {
    if s.threadsFinished == |s.requesters| {
      FinishedMeansServed(s);
    }
  }

  lemma ResolverKeepsExit(s: State, k: nat, pick: nat)
    requires Inv(s) && k < |s.resolvers| && !EmptyWake(s, Go(Res(k), pick))
    ensures ExitInv(MoveResolver(s, k, pick))
  {
    var t := MoveResolver(s, k, pick);
    if x :| 0 <= x < |t.resolvers| && t.resolvers[x] == Exited && x != k {
      assert s.resolvers[x] == Exited;
    }
  }

  lemma StepKeepsInv(s: State, t: Thread, pick: nat)
    requires Inv(s) && !EmptyWake(s, Go(t, pick))
    ensures LockInv(Step(s, t, pick)) && Conserved(Step(s, t, pick)) && ExitInv(Step(s, t, pick))
  {
    match t
    case Req(r) =>
      if r < |s.requesters| {
        RequesterKeepsLock(s, r, pick);
        RequesterKeepsConserved(s, r, pick);
        RequesterKeepsExit(s, r, pick);
      }
    case Res(k) =>
      if k < |s.resolvers| {
        ResolverKeepsLock(s, k, pick);
        ResolverKeepsConserved(s, k, pick);
        ResolverKeepsExit(s, k, pick);
      }
  }

  lemma MoveKeepsInv(s: State, e: Event)
    requires Inv(s) && !EmptyWake(s, e)
    ensures Inv(Move(s, e))
  {
    MoveKeepsFiles(s, e);
    MoveKeepsShape(s, e);
    match e
    case Go(t, pick) => StepKeepsInv(s, t, pick);
    case Spurious(_) => SameStack(s, Move(s, e));
  }

  lemma InitialInv(lines: seq<nat>, requesters: nat, resolvers: nat)
    requires |lines| > 0 && requesters > 0
    ensures Inv(Initial(lines, requesters, resolvers))
  {
    InitialFiles(lines, requesters, resolvers);
  }

  // ---------- Whole runs ----------

  /** No move of the schedule takes from an empty buffer. */
  ghost predicate NoEmptyWake(s: State, schedule: seq<Event>, n: nat)
    requires WellFormed(s) && n <= |schedule|
  {
    NoneBad(EmptyWake, s, schedule, n)
  }

  lemma MovesKeepInv()
    ensures MovesKeep(Inv, EmptyWake)
  {
    forall s, e | Inv(s) && !EmptyWake(s, e)
      ensures Inv(Move(s, e))
    {
      MoveKeepsInv(s, e);
    }
  }

  /** The invariant holds as long as no resolver has taken from an empty buffer. */
  lemma SafeRun(s: State, schedule: seq<Event>, n: nat)
    requires Inv(s) && n <= |schedule| && NoEmptyWake(s, schedule, n)
    ensures Inv(Run(s, schedule, n))
  {
    MovesKeepInv();
    RunKeeps(Inv, EmptyWake, s, schedule, n);
  }

  /** Taking from an empty buffer makes the position negative, for good. */
  lemma Underflow(s: State, e: Event)
    requires WellFormed(s)
    ensures EmptyWake(s, e) ==> Move(s, e).currentPosition < 0
    ensures s.currentPosition < 0 ==> Move(s, e).currentPosition < 0
  {
  }

  ghost predicate Negative(s: State) {
    WellFormed(s) && s.currentPosition < 0
  }

  lemma NegativeStays()
    ensures AllMovesKeep(Negative)
  {
    forall e
      ensures MoveKeeps(Negative, e)
    {
      forall s | Negative(s)
        ensures Negative(Move(s, e))
      {
        Underflow(s, e);
      }
    }
  }

  lemma UnderflowStays(s: State, schedule: seq<Event>, n: nat)
    requires WellFormed(s) && n <= |schedule| && !NoEmptyWake(s, schedule, n)
    ensures Negative(Run(s, schedule, n))
  {
    NegativeStays();
    forall u, e | WellFormed(u) && EmptyWake(u, e)
      ensures Negative(Move(u, e))
    {
      Underflow(u, e);
    }
    BadStays(Negative, EmptyWake, s, schedule, n);
  }

  /**
   The stack is conserved exactly as long as no resolver takes from an empty buffer after
   coming back from its wait.
   */
  lemma SafeExactly(s: State, schedule: seq<Event>, n: nat)
    requires Inv(s) && n <= |schedule|
    ensures Conserved(Run(s, schedule, n)) <==> NoEmptyWake(s, schedule, n)
    ensures !NoEmptyWake(s, schedule, n) ==> Run(s, schedule, n).currentPosition < 0
  {
    if NoEmptyWake(s, schedule, n) {
      SafeRun(s, schedule, n);
    } else {
      UnderflowStays(s, schedule, n);
    }
  }

  /** A resolver comes back from its wait to an empty buffer. */
  predicate EmptyReturn(s: State, e: Event) {
    && e.Go? && e.thread.Res? && e.thread.id < |s.resolvers| && s.resolvers[e.thread.id] == WaitEmpty
    && e.thread in s.roused && s.lock.None? && s.currentPosition == 0
  }

  ghost predicate NoEmptyReturn(s: State, schedule: seq<Event>, n: nat)
    requires WellFormed(s) && n <= |schedule|
  {
    NoneBad(EmptyReturn, s, schedule, n)
  }

  /** A resolver that has come back from its wait still has something to take. */
  ghost predicate WokenInv(s: State) {
    forall k | 0 <= k < |s.resolvers| && s.resolvers[k] == Woken :: s.currentPosition > 0
  }

  ghost predicate FullInv(s: State) {
    Inv(s) && WokenInv(s)
  }

  lemma RequesterKeepsWoken(s: State, r: nat, pick: nat)
    requires Inv(s) && WokenInv(s) && r < |s.requesters|
    ensures WokenInv(MoveRequester(s, r, pick))
  {
  }

  lemma ResolverKeepsWoken(s: State, k: nat, pick: nat)
    requires Inv(s) && WokenInv(s) && k < |s.resolvers| && !EmptyReturn(s, Go(Res(k), pick))
    ensures WokenInv(MoveResolver(s, k, pick))
  {
  }

  lemma MoveKeepsWoken(s: State, e: Event)
    requires Inv(s) && WokenInv(s) && !EmptyReturn(s, e)
    ensures WokenInv(Move(s, e))
  {
    if e.Go? {
      match e.thread
      case Req(r) =>
        if r < |s.requesters| {
          RequesterKeepsWoken(s, r, e.pick);
        }
      case Res(k) =>
        if k < |s.resolvers| {
          ResolverKeepsWoken(s, k, e.pick);
        }
    }
  }

  lemma MovesKeepFull()
    ensures MovesKeep(FullInv, EmptyReturn)
  {
    forall s, e | FullInv(s) && !EmptyReturn(s, e)
      ensures FullInv(Move(s, e))
    {
      MoveKeepsInv(s, e);
      MoveKeepsWoken(s, e);
    }
  }

  /**
   If no wait returns to an empty buffer, nothing is ever taken from an empty buffer: the
   lock is held in between.
   */
  lemma ReturnsDecide(s: State, schedule: seq<Event>, n: nat)
    requires FullInv(s) && n <= |schedule| && NoEmptyReturn(s, schedule, n)
    ensures FullInv(Run(s, schedule, n)) && NoEmptyWake(s, schedule, n)
  {
    MovesKeepFull();
    RunKeeps(FullInv, EmptyReturn, s, schedule, n);
    forall i | 0 <= i < n
      ensures !EmptyWake(Run(s, schedule, i), schedule[i])
    {
      RunKeeps(FullInv, EmptyReturn, s, schedule, i);
    }
  }

  /** Conservation: if no wait returns to an empty buffer, the stack is conserved throughout. */
  lemma StackConservation(lines: seq<nat>, requesters: nat, resolvers: nat, schedule: seq<Event>, n: nat)
    requires |lines| > 0 && requesters > 0 && n <= |schedule|
    requires NoEmptyReturn(Initial(lines, requesters, resolvers), schedule, n)
    ensures Conserved(Run(Initial(lines, requesters, resolvers), schedule, n))
  {
    InitialInv(lines, requesters, resolvers);
    ReturnsDecide(Initial(lines, requesters, resolvers), schedule, n);
  }

  lemma Drained(s: State)
    requires Inv(s) && s.threadsFinished == |s.requesters| && s.currentPosition == 0
    ensures forall e: Entry :: s.taken[e] == Pushed(s.lines, e)
  {
    FinishedMeansServed(s);
    forall e: Entry
      ensures s.taken[e] == Pushed(s.lines, e)
    {
      assert Buffered(s, e) + s.taken[e] == Pushed(s.progress, e);
      assert s.buffer[..s.currentPosition] == [];
    }
  }

  /** Drain: once a resolver has exited, every line of every file has been taken exactly once. */
  lemma RunDrains(lines: seq<nat>, requesters: nat, resolvers: nat, schedule: seq<Event>, n: nat)
    requires |lines| > 0 && requesters > 0 && n <= |schedule|
    requires NoEmptyWake(Initial(lines, requesters, resolvers), schedule, n)
    requires var s := Run(Initial(lines, requesters, resolvers), schedule, n);
      exists k :: 0 <= k < |s.resolvers| && s.resolvers[k] == Exited
    ensures forall e: Entry :: Run(Initial(lines, requesters, resolvers), schedule, n).taken[e] == Pushed(lines, e)
  {
    var s0 := Initial(lines, requesters, resolvers);
    InitialInv(lines, requesters, resolvers);
    SafeRun(s0, schedule, n);
    RunKeepsShape(s0, schedule, n);
    Drained(Run(s0, schedule, n));
  }
}
