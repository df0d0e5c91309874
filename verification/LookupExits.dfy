/**
 When all requesters have finished: which resolvers can still exit, and which wait for ever. Both
 are equivalences, for every state that any schedule can reach and every resolver.
 */
module LookupExits {
  import opened Machine
  import opened Lookup
  import opened LookupFiles
  import opened LookupBuffer
  import opened LookupHazards
  import opened LookupSchedules

  // ---------- Who has the lock ----------

  /** `buffer_lock` is free, or held by a thread that is inside a critical section. */
  ghost predicate HolderInv(s: State) {
    match s.lock
    case None => true
    case Some(Req(r)) => r < |s.requesters| && s.requesters[r].Pushing?
    case Some(Res(k)) => k < |s.resolvers| && s.resolvers[k] in {Inside, Emptied, Woken}
  }

  /** What holds in every schedule, whatever has been taken from an empty buffer. */
  ghost predicate AlwaysInv(s: State) {
    FilesInv(s) && LockInv(s) && HolderInv(s) && RousedWait(s)
  }

  lemma RequesterKeepsHolder(s: State, r: nat, pick: nat)
    requires WellFormed(s) && LockInv(s) && HolderInv(s) && s.currentPosition >= 0 && r < |s.requesters|
    ensures HolderInv(MoveRequester(s, r, pick))
  {
  }

  lemma ResolverKeepsHolder(s: State, k: nat, pick: nat)
    requires WellFormed(s) && LockInv(s) && HolderInv(s) && s.currentPosition >= 0 && k < |s.resolvers|
    ensures HolderInv(MoveResolver(s, k, pick))
  {
  }

  lemma MoveKeepsLocks(s: State, e: Event)
    requires WellFormed(s) && LockInv(s) && HolderInv(s)
    ensures LockInv(Move(s, e)) && HolderInv(Move(s, e))
  {
    if s.currentPosition >= 0 && e.Go? {
      match e.thread
      case Req(r) =>
        if r < |s.requesters| {
          RequesterKeepsLock(s, r, e.pick);
          RequesterKeepsHolder(s, r, e.pick);
        }
      case Res(k) =>
        if k < |s.resolvers| {
          ResolverKeepsLock(s, k, e.pick);
          ResolverKeepsHolder(s, k, e.pick);
        }
    }
  }

  lemma MoveKeepsAlways(s: State, e: Event)
    requires AlwaysInv(s)
    ensures AlwaysInv(Move(s, e))
  {
    MoveKeepsFiles(s, e);
    MoveKeepsLocks(s, e);
    MoveKeepsRoused(s, e);
  }

  lemma RunKeepsAlways(s: State, schedule: seq<Event>, n: nat)
    requires AlwaysInv(s) && n <= |schedule|
    ensures AlwaysInv(Run(s, schedule, n))
  {
    forall e
      ensures MoveKeeps(AlwaysInv, e)
    {
      forall u | AlwaysInv(u)
        ensures AlwaysInv(Move(u, e))
      {
        MoveKeepsAlways(u, e);
      }
    }
    RunKeepsOn(AlwaysInv, s, schedule, 0, n);
  }

  lemma InitialAlways(lines: seq<nat>, requesters: nat, resolvers: nat)
    requires |lines| > 0
    ensures AlwaysInv(Initial(lines, requesters, resolvers))
  {
    InitialFiles(lines, requesters, resolvers);
  }

  // ---------- All requesters have finished ----------

  ghost predicate Over(s: State) {
    AlwaysInv(s) && |s.requesters| > 0 && s.threadsFinished == |s.requesters|
  }

  lemma OverStays(s: State, e: Event)
    requires Over(s)
    ensures Over(Move(s, e)) && |Move(s, e).resolvers| == |s.resolvers|
    ensures e.Go? && e.thread.Req? ==> Move(s, e) == s
  {
    MoveKeepsAlways(s, e);
    MoveKeepsShape(s, e);
    NoPushNow(s, e);
    FinishedMeansServed(s);
  }

  /** Resolver `h` has the lock; nobody else is inside. */
  lemma OverHolder(s: State)
    requires Over(s) && s.lock.Some?
    ensures s.lock.value.Res? && s.lock.value.id < |s.resolvers|
    ensures s.resolvers[s.lock.value.id] in {Inside, Emptied, Woken}
  {
    FinishedMeansServed(s);
  }

  /** The position is negative, or a resolver that holds the lock is about to make it so. */
  predicate Lost(s: State) {
    || s.currentPosition < 0
    || (s.currentPosition == 0 && HolderIs(s, {Woken}))
  }

  predicate HolderIs(s: State, states: set<Resolver>) {
    s.lock.Some? && s.lock.value.Res? && s.lock.value.id < |s.resolvers| && s.resolvers[s.lock.value.id] in states
  }

  /** How many lines will be taken before the lock is free. */
  function Ahead(s: State): nat {
    if HolderIs(s, {Inside, Woken}) then 1 else 0
  }

  /**
   Resolver `k` has exited; or it is at work or about to be, and no take from an empty buffer is coming; or it
   waits, has been unblocked, and a line will be left for it when the lock is free.
   */
  predicate MayExit(s: State, k: nat)
    requires k < |s.resolvers|
  {
    match s.resolvers[k]
    case Exited => true
    case Emptied => false
    case WaitEmpty => Res(k) in s.roused && s.currentPosition > Ahead(s)
    case _ => !Lost(s)
  }

  /** Some schedule without spurious wake-ups leads to the exit of resolver `k`. */
  ghost predicate CanExit(s: State, k: nat)
    requires WellFormed(s)
  {
    exists rest :: Calm(rest) && ExitedAfter(s, rest, k)
  }

  ghost predicate ExitedAfter(s: State, rest: seq<Event>, k: nat)
    requires WellFormed(s)
  {
    var t := Run(s, rest, |rest|);
    k < |t.resolvers| && t.resolvers[k] == Exited
  }

  // ---------- No exit ----------

  lemma LostMove(s: State, j: nat, k: nat, pick: nat)
    requires WellFormed(s) && LockInv(s) && HolderInv(s) && s.currentPosition >= 0 && Lost(s)
    requires j < |s.resolvers| && k < |s.resolvers| && s.resolvers[k] != Exited
    ensures var t := MoveResolver(s, j, pick);
      && Lost(t) && t.resolvers[k] != Exited
      && (s.resolvers[k] in {Emptied, WaitEmpty} ==> t.resolvers[k] == s.resolvers[k])
  {
  }

  /** The moves of resolver `j`, while a line is missing for resolver `k`. */
  lemma ShortMove(s: State, j: nat, k: nat, pick: nat)
    requires WellFormed(s) && LockInv(s) && HolderInv(s) && s.currentPosition >= 0 && !Lost(s)
    requires SignalFull(s.roused, s.requesters, pick) == s.roused && s.threadsFinished == |s.requesters|
    requires j < |s.resolvers| && k < |s.resolvers| && s.resolvers[k] == WaitEmpty && s.currentPosition <= Ahead(s)
    ensures !MayExit(MoveResolver(s, j, pick), k)
  {
  }

  lemma NoExitMove(s: State, e: Event, k: nat)
    requires Over(s) && e.Go? && k < |s.resolvers| && !MayExit(s, k)
    ensures Over(Move(s, e)) && k < |Move(s, e).resolvers| && !MayExit(Move(s, e), k)
  {
    OverStays(s, e);
    FinishedMeansServed(s);
    if s.currentPosition >= 0 && e.thread.Res? && e.thread.id < |s.resolvers| {
      NobodyToSignal(s, e.pick);
      if Lost(s) {
        LostMove(s, e.thread.id, k, e.pick);
      } else if s.resolvers[k] == WaitEmpty && Res(k) in s.roused {
        ShortMove(s, e.thread.id, k, e.pick);
      } else {
        MissedResolver(s, k, e.thread.id, e.pick);
      }
    }
  }

  ghost function CannotExit(k: nat): State -> bool {
    s => Over(s) && k < |s.resolvers| && !MayExit(s, k)
  }

  ghost function IsSpurious(): (State, Event) -> bool {
    (s: State, e: Event) => e.Spurious?
  }

  /** What calm moves keep holds after every calm schedule. */
  lemma CalmKeeps(P: State -> bool, s: State, rest: seq<Event>)
    requires WellFormed(s) && P(s) && Calm(rest) && MovesKeep(P, IsSpurious())
    ensures P(Run(s, rest, |rest|))
  {
    RunKeeps(P, IsSpurious(), s, rest, |rest|);
  }

  lemma NeverExits(s: State, k: nat, rest: seq<Event>)
    requires Over(s) && k < |s.resolvers| && !MayExit(s, k) && Calm(rest)
    ensures CannotExit(k)(Run(s, rest, |rest|))
  {
    var P := CannotExit(k);
    forall u, e | P(u) && !IsSpurious()(u, e)
      ensures P(Move(u, e))
    {
      NoExitMove(u, e, k);
    }
    CalmKeeps(P, s, rest);
  }

  // ---------- The way out ----------

  /** Only resolver `j` has moved. */
  ghost predicate OnlyMoved(s: State, t: State, j: nat) {
    j < |s.resolvers| && |t.resolvers| == |s.resolvers| && t.resolvers == s.resolvers[j := t.resolvers[j]]
  }

  lemma ResolverMovesAlone(s: State, j: nat, pick: nat)
    requires WellFormed(s) && s.currentPosition >= 0 && j < |s.resolvers|
    requires SignalFull(s.roused, s.requesters, pick) == s.roused
    ensures var t := MoveResolver(s, j, pick);
      && OnlyMoved(s, t, j)
      && t.roused == if s.resolvers[j] == WaitEmpty && t.resolvers[j] == Woken then s.roused - {Res(j)} else s.roused
  {
  }

  /** One move of resolver `j`, when all requesters have finished. */
  lemma MoveOf(s0: State, s: State, j: nat) returns (t: State)
    requires WellFormed(s0) && Leads(s0, s) && Over(s) && s.currentPosition >= 0 && j < |s.resolvers|
    ensures t == MoveResolver(s, j, 0) && Leads(s0, t) && Over(t) && OnlyMoved(s, t, j)
    ensures t.roused == if s.resolvers[j] == WaitEmpty && t.resolvers[j] == Woken then s.roused - {Res(j)} else s.roused
  {
    OverStays(s, Go(Res(j), 0));
    NobodyWaitsForRoom(s);
    ResolverMovesAlone(s, j, 0);
    t := LeadsOn(s0, s, Res(j));
  }

  lemma NobodyWaitsForRoom(s: State)
    requires Over(s)
    ensures SignalFull(s.roused, s.requesters, 0) == s.roused
  {
    FinishedMeansServed(s);
    NobodyToSignal(s, 0);
  }

  /** The holder of the lock has begun to wait, has exited, or has taken a line. */
  ghost predicate HolderReleases(s: State, t: State, h: nat) {
    && OnlyMoved(s, t, h)
    && t.resolvers[h] == if s.resolvers[h] == Emptied then WaitEmpty
                         else if s.resolvers[h] == Inside && s.currentPosition == 0 then Exited
                         else Outside
  }

  lemma HolderMoves(s: State, h: nat, pick: nat)
    requires WellFormed(s) && s.currentPosition >= 0 && !Lost(s) && s.threadsFinished == |s.requesters|
    requires h < |s.resolvers| && s.lock == Some(Res(h)) && s.resolvers[h] in {Inside, Emptied, Woken}
    ensures var t := MoveResolver(s, h, pick);
      && t.lock.None? && HolderReleases(s, t, h)
      && t.currentPosition == if s.currentPosition > 0 then s.currentPosition - Ahead(s) else 0
  {
  }

  /** The holder of the lock, if there is one, goes on until the lock is free. */
  lemma FreeLock(s0: State, s: State) returns (t: State)
    requires WellFormed(s0) && Leads(s0, s) && Over(s) && !Lost(s)
    ensures Leads(s0, t) && Over(t) && t.lock.None? && |t.resolvers| == |s.resolvers|
    ensures t.currentPosition == if s.currentPosition > 0 then s.currentPosition - Ahead(s) else 0
    ensures t.roused == s.roused
    ensures s.lock.None? ==> t == s
    ensures s.lock.Some? ==> s.lock.value.Res? && HolderReleases(s, t, s.lock.value.id)
  {
    t := s;
    if s.lock.Some? {
      OverHolder(s);
      HolderMoves(s, s.lock.value.id, 0);
      t := MoveOf(s0, s, s.lock.value.id);
    }
  }

  /** An unblocked resolver comes back from its wait. */
  lemma ComesIn(s0: State, s: State, k: nat) returns (t: State)
    requires WellFormed(s0) && Leads(s0, s) && Over(s) && s.lock.None? && s.currentPosition >= 0
    requires k < |s.resolvers| && s.resolvers[k] == WaitEmpty && Res(k) in s.roused
    ensures Leads(s0, t) && Over(t) && OnlyMoved(s, t, k) && t.resolvers[k] == Woken
    ensures t.currentPosition == s.currentPosition && t.roused == s.roused - {Res(k)}
  {
    t := MoveOf(s0, s, k);
  }

  /** And takes a line. */
  lemma TakesOne(s0: State, s: State, k: nat) returns (t: State)
    requires WellFormed(s0) && Leads(s0, s) && Over(s) && s.currentPosition >= 0
    requires k < |s.resolvers| && s.resolvers[k] == Woken
    ensures Leads(s0, t) && Over(t) && t.lock.None? && OnlyMoved(s, t, k) && t.resolvers[k] == Outside
    ensures t.currentPosition == s.currentPosition - 1 && t.roused == s.roused
  {
    t := MoveOf(s0, s, k);
  }

  lemma ReturnAndTake(s0: State, s: State, k: nat) returns (t: State)
    requires WellFormed(s0) && Leads(s0, s) && Over(s) && s.lock.None? && s.currentPosition >= 0
    requires k < |s.resolvers| && s.resolvers[k] == WaitEmpty && Res(k) in s.roused
    ensures Leads(s0, t) && Over(t) && t.lock.None? && OnlyMoved(s, t, k) && t.resolvers[k] == Outside
    ensures t.currentPosition == s.currentPosition - 1 && t.roused == s.roused - {Res(k)}
  {
    var u := ComesIn(s0, s, k);
    t := TakesOne(s0, u, k);
  }

  /** A resolver outside takes what is left. */
  lemma {:induction false} Drain(s0: State, s: State, k: nat) returns (t: State)
    requires WellFormed(s0) && Leads(s0, s) && Over(s) && s.lock.None? && s.currentPosition >= 0
    requires k < |s.resolvers| && s.resolvers[k] == Outside
    ensures Leads(s0, t) && Over(t) && t.lock.None? && t.resolvers == s.resolvers && t.roused == s.roused
    ensures t.currentPosition == 0
    decreases s.currentPosition
  {
    t := s;
    if s.currentPosition > 0 {
      var u := MoveOf(s0, s, k);
      var v := MoveOf(s0, u, k);
      t := Drain(s0, v, k);
    }
  }

  /** And then it exits. */
  lemma DrainAndExit(s0: State, s: State, k: nat) returns (t: State)
    requires WellFormed(s0) && Leads(s0, s) && Over(s) && s.lock.None? && s.currentPosition >= 0
    requires k < |s.resolvers| && s.resolvers[k] == Outside
    ensures Leads(s0, t) && |t.resolvers| == |s.resolvers| && t.resolvers[k] == Exited
  {
    var u := Drain(s0, s, k);
    var v := MoveOf(s0, u, k);
    t := MoveOf(s0, v, k);
  }

  lemma WayOut(s: State, k: nat) returns (t: State)
    requires Over(s) && k < |s.resolvers| && MayExit(s, k)
    ensures Leads(s, t) && k < |t.resolvers| && t.resolvers[k] == Exited
  {
    LeadsHere(s);
    t := s;
    if s.resolvers[k] != Exited {
      t := FreeLock(s, s);
      if t.resolvers[k] == WaitEmpty {
        t := ReturnAndTake(s, t, k);
      }
      if t.resolvers[k] == Outside {
        t := DrainAndExit(s, t, k);
      }
    }
  }

  /** When all requesters have finished, a resolver can still exit if and only if `MayExit` says so. */
  lemma ExitsExactly(s: State, k: nat)
    requires Over(s) && k < |s.resolvers|
    ensures CanExit(s, k) <==> MayExit(s, k)
  {
    if MayExit(s, k) {
      var t := WayOut(s, k);
      var rest := SomeCalm(s, t);
      assert ExitedAfter(s, rest, k);
    }
    if CanExit(s, k) {
      var rest :| Calm(rest) && ExitedAfter(s, rest, k);
      if !MayExit(s, k) {
        NeverExits(s, k, rest);
        assert false;
      }
    }
  }

  // ---------- Waiting for ever ----------

  /** Resolver `k` is about to wait, or waits, and no take from an empty buffer is needed to keep it there. */
  predicate MustWait(s: State, k: nat)
    requires k < |s.resolvers|
  {
    s.resolvers[k] in {Emptied, WaitEmpty} && (Res(k) !in s.roused || Lost(s))
  }

  /** After every schedule without spurious wake-ups resolver `k` is still about to wait, or waits. */
  ghost predicate WaitsOn(s: State, k: nat)
    requires WellFormed(s)
  {
    forall rest | Calm(rest) :: WaitsAfter(s, rest, k)
  }

  ghost predicate WaitsAfter(s: State, rest: seq<Event>, k: nat)
    requires WellFormed(s)
  {
    var t := Run(s, rest, |rest|);
    k < |t.resolvers| && t.resolvers[k] in {Emptied, WaitEmpty}
  }

  ghost function MustWaitOn(k: nat): State -> bool {
    s => Over(s) && k < |s.resolvers| && MustWait(s, k)
  }

  lemma MustWaitMove(s: State, e: Event, k: nat)
    requires Over(s) && e.Go? && k < |s.resolvers| && MustWait(s, k)
    ensures Over(Move(s, e)) && k < |Move(s, e).resolvers| && MustWait(Move(s, e), k)
  {
    OverStays(s, e);
    if s.currentPosition >= 0 && e.thread.Res? && e.thread.id < |s.resolvers| {
      FinishedMeansServed(s);
      NobodyToSignal(s, e.pick);
      if Lost(s) {
        LostMove(s, e.thread.id, k, e.pick);
      } else {
        MissedResolver(s, k, e.thread.id, e.pick);
      }
    }
  }

  lemma MustWaitForever(s: State, k: nat, rest: seq<Event>)
    requires Over(s) && k < |s.resolvers| && MustWait(s, k) && Calm(rest)
    ensures MustWaitOn(k)(Run(s, rest, |rest|))
  {
    var P := MustWaitOn(k);
    forall u, e | P(u) && !IsSpurious()(u, e)
      ensures P(Move(u, e))
    {
      MustWaitMove(u, e, k);
    }
    CalmKeeps(P, s, rest);
  }

  /** An unblocked resolver can come back from its wait, unless a take from an empty buffer is at hand. */
  lemma ComesBack(s: State, k: nat) returns (t: State)
    requires Over(s) && k < |s.resolvers| && s.resolvers[k] == WaitEmpty && Res(k) in s.roused && !Lost(s)
    ensures Leads(s, t) && k < |t.resolvers| && t.resolvers[k] == Woken
  {
    LeadsHere(s);
    t := FreeLock(s, s);
    t := ComesIn(s, t, k);
  }

  /** When all requesters have finished, a resolver never leaves its wait if and only if `MustWait` says so. */
  lemma WaitsExactly(s: State, k: nat)
    requires Over(s) && k < |s.resolvers|
    ensures WaitsOn(s, k) <==> MustWait(s, k)
  {
    if MustWait(s, k) {
      forall rest | Calm(rest)
        ensures WaitsAfter(s, rest, k)
      {
        MustWaitForever(s, k, rest);
      }
    } else if s.resolvers[k] in {Emptied, WaitEmpty} {
      assert RousedWait(s) && Waits(s, Res(k));
      var t := ComesBack(s, k);
      var rest := SomeCalm(s, t);
      assert !WaitsAfter(s, rest, k);
    } else {
      assert Calm([]) && !WaitsAfter(s, [], k);
    }
  }

  // ---------- Taking from an empty buffer ----------

  /** The resolver will take a line, or exit, when its turn comes. */
  predicate AtWork(s: State, j: nat)
    requires j < |s.resolvers|
  {
    s.resolvers[j] in {Outside, Inside, Woken} || (s.resolvers[j] == WaitEmpty && Res(j) in s.roused)
  }

  /** An unblocked resolver waits, and no line is left for it or another resolver can take them all. */
  predicate LineAtRisk(s: State, k: nat) {
    && k < |s.resolvers| && s.resolvers[k] == WaitEmpty && Res(k) in s.roused
    && (s.currentPosition == 0 || exists j :: 0 <= j < |s.resolvers| && j != k && AtWork(s, j))
  }

  predicate MayUnderflow(s: State) {
    Lost(s) || exists k :: 0 <= k < |s.resolvers| && LineAtRisk(s, k)
  }

  /** Some schedule without spurious wake-ups takes from an empty buffer, or that has happened. */
  ghost predicate CanUnderflow(s: State)
    requires WellFormed(s)
  {
    exists rest :: Calm(rest) && Run(s, rest, |rest|).currentPosition < 0
  }

  /** A resolver that is not at work does not begin to be. */
  lemma IdleMove(s: State, j: nat, pick: nat)
    requires WellFormed(s) && RousedWait(s) && s.currentPosition >= 0 && j < |s.resolvers| && !AtWork(s, j)
    requires SignalFull(s.roused, s.requesters, pick) == s.roused
    ensures var t := MoveResolver(s, j, pick);
      OnlyMoved(s, t, j) && !AtWork(t, j) && t.roused == s.roused && t.currentPosition == s.currentPosition
  {
    assert Res(j) in s.roused ==> Waits(s, Res(j));
  }

  lemma SafeOwnMove(s: State, j: nat, pick: nat)
    requires WellFormed(s) && RousedWait(s) && s.currentPosition >= 0 && j < |s.resolvers| && !LineAtRisk(s, j)
    requires SignalFull(s.roused, s.requesters, pick) == s.roused
    ensures !LineAtRisk(MoveResolver(s, j, pick), j)
  {
    assert Res(j) in s.roused ==> Waits(s, Res(j));
  }

  lemma SafeOtherMove(s: State, j: nat, pick: nat, k: nat)
    requires WellFormed(s) && RousedWait(s) && s.currentPosition >= 0
    requires j < |s.resolvers| && j != k && !LineAtRisk(s, k)
    requires SignalFull(s.roused, s.requesters, pick) == s.roused
    ensures !LineAtRisk(MoveResolver(s, j, pick), k)
  {
    var t := MoveResolver(s, j, pick);
    if AtWork(s, j) {
      ResolverMovesAlone(s, j, pick);
    } else {
      IdleMove(s, j, pick);
      forall i | 0 <= i < |s.resolvers|
        ensures AtWork(t, i) <==> AtWork(s, i)
      {
      }
    }
  }

  /** Unless `MayUnderflow`, an unblocked waiting resolver is the only one at work, with a line to take. */
  lemma SafeResolverMove(s: State, j: nat, pick: nat, k: nat)
    requires WellFormed(s) && RousedWait(s) && s.currentPosition >= 0 && j < |s.resolvers| && !LineAtRisk(s, k)
    requires SignalFull(s.roused, s.requesters, pick) == s.roused
    ensures !LineAtRisk(MoveResolver(s, j, pick), k)
  {
    if j == k {
      SafeOwnMove(s, j, pick);
    } else {
      SafeOtherMove(s, j, pick, k);
    }
  }

  lemma SafeNotLost(s: State, j: nat, pick: nat)
    requires WellFormed(s) && LockInv(s) && HolderInv(s) && s.currentPosition >= 0 && !MayUnderflow(s)
    requires j < |s.resolvers|
    ensures !Lost(MoveResolver(s, j, pick))
  {
    assert !LineAtRisk(s, j);
  }

  lemma SafeMove(s: State, e: Event)
    requires Over(s) && e.Go? && !MayUnderflow(s)
    ensures Over(Move(s, e)) && !MayUnderflow(Move(s, e))
  {
    OverStays(s, e);
    if e.thread.Res? && e.thread.id < |s.resolvers| {
      FinishedMeansServed(s);
      NobodyToSignal(s, e.pick);
      SafeNotLost(s, e.thread.id, e.pick);
      forall k | 0 <= k < |s.resolvers|
        ensures !LineAtRisk(Move(s, e), k)
      {
        SafeResolverMove(s, e.thread.id, e.pick, k);
      }
    }
  }

  ghost function Safe(): State -> bool {
    s => Over(s) && !MayUnderflow(s)
  }

  lemma StaysSafe(s: State, rest: seq<Event>)
    requires Over(s) && !MayUnderflow(s) && Calm(rest)
    ensures Safe()(Run(s, rest, |rest|))
  {
    var P := Safe();
    forall u, e | P(u) && !IsSpurious()(u, e)
      ensures P(Move(u, e))
    {
      SafeMove(u, e);
    }
    CalmKeeps(P, s, rest);
  }

  /** With the buffer empty, an unblocked resolver comes back from its wait and takes from position -1. */
  lemma EmptyTake(s0: State, s: State, k: nat) returns (t: State)
    requires WellFormed(s0) && Leads(s0, s) && Over(s) && s.lock.None? && s.currentPosition == 0
    requires k < |s.resolvers| && s.resolvers[k] == WaitEmpty && Res(k) in s.roused
    ensures Leads(s0, t) && t.currentPosition < 0
  {
    t := ReturnAndTake(s0, s, k);
  }

  /** Another resolver takes all lines before resolver `k` has come back. */
  lemma TakeAllBefore(s0: State, s: State, k: nat, j: nat) returns (t: State)
    requires WellFormed(s0) && Leads(s0, s) && Over(s) && s.lock.None? && s.currentPosition > 0
    requires k < |s.resolvers| && s.resolvers[k] == WaitEmpty && Res(k) in s.roused
    requires j < |s.resolvers| && j != k && AtWork(s, j)
    ensures Leads(s0, t) && t.currentPosition < 0
  {
    var u := s;
    if s.resolvers[j] == WaitEmpty {
      u := ReturnAndTake(s0, s, j);
    }
    var v := Drain(s0, u, j);
    t := EmptyTake(s0, v, k);
  }

  lemma StillAtWork(s: State, t: State, k: nat, j: nat)
    requires !Lost(s) && k < |s.resolvers| && s.resolvers[k] == WaitEmpty && Res(k) in s.roused
    requires t.roused == s.roused
    requires t == s || (s.lock.Some? && s.lock.value.Res? && HolderReleases(s, t, s.lock.value.id)
                        && s.resolvers[s.lock.value.id] in {Inside, Emptied, Woken})
    requires j < |s.resolvers| && AtWork(s, j) && s.currentPosition > 0
    ensures |t.resolvers| == |s.resolvers| && t.resolvers[k] == WaitEmpty && Res(k) in t.roused && AtWork(t, j)
  {
  }

  lemma LostTake(s: State, h: nat)
    requires WellFormed(s) && s.currentPosition == 0 && h < |s.resolvers| && s.resolvers[h] == Woken
    ensures MoveResolver(s, h, 0).currentPosition == -1
  {
  }

  lemma LostUnderflows(s: State) returns (t: State)
    requires Over(s) && Lost(s)
    ensures Leads(s, t) && t.currentPosition < 0
  {
    LeadsHere(s);
    t := s;
    if s.currentPosition >= 0 {
      LostTake(s, s.lock.value.id);
      t := MoveOf(s, s, s.lock.value.id);
    }
  }

  lemma RiskUnderflows(s: State, k: nat) returns (t: State)
    requires Over(s) && !Lost(s) && LineAtRisk(s, k)
    ensures Leads(s, t) && t.currentPosition < 0
  {
    LeadsHere(s);
    if s.lock.Some? {
      OverHolder(s);
    }
    var u := FreeLock(s, s);
    if s.currentPosition == 0 {
      t := EmptyTake(s, u, k);
    } else {
      var j :| 0 <= j < |s.resolvers| && j != k && AtWork(s, j);
      StillAtWork(s, u, k, j);
      if u.currentPosition == 0 {
        t := EmptyTake(s, u, k);
      } else {
        t := TakeAllBefore(s, u, k, j);
      }
    }
  }

  lemma WayToUnderflow(s: State) returns (t: State)
    requires Over(s) && MayUnderflow(s)
    ensures Leads(s, t) && t.currentPosition < 0
  {
    if Lost(s) {
      t := LostUnderflows(s);
    } else {
      var k :| 0 <= k < |s.resolvers| && LineAtRisk(s, k);
      t := RiskUnderflows(s, k);
    }
  }

  /** When all requesters have finished, a take from an empty buffer can still come if and only if `MayUnderflow`. */
  lemma UnderflowsExactly(s: State)
    requires Over(s)
    ensures CanUnderflow(s) <==> MayUnderflow(s)
  {
    if MayUnderflow(s) {
      var t := WayToUnderflow(s);
      var rest := SomeCalm(s, t);
      assert Run(s, rest, |rest|).currentPosition < 0;
    }
    if CanUnderflow(s) && !MayUnderflow(s) {
      var rest :| Calm(rest) && Run(s, rest, |rest|).currentPosition < 0;
      StaysSafe(s, rest);
      assert false;
    }
  }

  // ---------- From the start ----------

  /** All this holds in every state that a schedule, spurious wake-ups included, can reach. */
  lemma AfterTheLastFinish(lines: seq<nat>, requesters: nat, resolvers: nat, schedule: seq<Event>, n: nat, k: nat)
    requires |lines| > 0 && requesters > 0 && n <= |schedule| && k < resolvers
    requires Run(Initial(lines, requesters, resolvers), schedule, n).threadsFinished == requesters
    ensures var s := Run(Initial(lines, requesters, resolvers), schedule, n);
      && k < |s.resolvers|
      && (CanExit(s, k) <==> MayExit(s, k))
      && (WaitsOn(s, k) <==> MustWait(s, k))
      && (CanUnderflow(s) <==> MayUnderflow(s))
  {
    var s0 := Initial(lines, requesters, resolvers);
    InitialAlways(lines, requesters, resolvers);
    RunKeepsAlways(s0, schedule, n);
    RunKeepsShape(s0, schedule, n);
    OverExactly(Run(s0, schedule, n), k);
  }

  lemma OverExactly(s: State, k: nat)
    requires Over(s) && k < |s.resolvers|
    ensures CanExit(s, k) <==> MayExit(s, k)
    ensures WaitsOn(s, k) <==> MustWait(s, k)
    ensures CanUnderflow(s) <==> MayUnderflow(s)
  {
    ExitsExactly(s, k);
    WaitsExactly(s, k);
    UnderflowsExactly(s);
  }

  /** The work is done, resolvers below `m` have exited, and the others are outside. */
  ghost predicate Leaving(s: State, m: nat) {
    && Over(s) && s.lock.None? && s.currentPosition == 0 && s.roused == {} && m <= |s.resolvers|
    && forall k | 0 <= k < |s.resolvers| :: s.resolvers[k] == if k < m then Exited else Outside
  }

  lemma OneLeaves(s0: State, s: State, m: nat) returns (t: State)
    requires WellFormed(s0) && Leads(s0, s) && Leaving(s, m) && m < |s.resolvers|
    ensures Leads(s0, t) && Leaving(t, m + 1) && |t.resolvers| == |s.resolvers|
  {
    var u := MoveOf(s0, s, m);
    t := MoveOf(s0, u, m);
  }

  lemma {:induction false} AllLeave(s0: State, s: State, m: nat) returns (t: State)
    requires WellFormed(s0) && Leads(s0, s) && Leaving(s, m)
    ensures Leads(s0, t) && |t.resolvers| == |s.resolvers| && Leaving(t, |s.resolvers|)
    decreases |s.resolvers| - m
  {
    t := s;
    if m < |s.resolvers| {
      var u := OneLeaves(s0, s, m);
      t := AllLeave(s0, u, m + 1);
    }
  }

  lemma LeadsKeepsAlways(s0: State, s: State)
    requires AlwaysInv(s0) && Leads(s0, s)
    ensures AlwaysInv(s)
  {
    var schedule := SomeCalm(s0, s);
    RunKeepsAlways(s0, schedule, |schedule|);
  }

  lemma LeadsKeepsShape(s0: State, s: State)
    requires WellFormed(s0) && Leads(s0, s)
    ensures |s.requesters| == |s0.requesters| && |s.resolvers| == |s0.resolvers|
  {
    var schedule := SomeCalm(s0, s);
    RunKeepsShape(s0, schedule, |schedule|);
  }

  lemma BeginToLeave(s: State, t: State)
    requires |s.requesters| > 0 && Idle(s, Outside, None, |s.requesters| - 1)
    requires t == Move(s, Go(Req(0), 0)) && AlwaysInv(t)
    ensures Leaving(t, 0)
  {
    LastOneFinishes(s, Outside, None);
  }

  /**
   For every set of files and every number of threads it can also go well: a schedule without spurious wake-ups
   after which all resolvers have exited, and in which nothing is taken from an empty buffer.
   */
  lemma EverythingCanEnd(lines: seq<nat>, requesters: nat, resolvers: nat) returns (schedule: seq<Event>)
    requires |lines| > 0 && requesters > 0 && resolvers > 0
    ensures Calm(schedule)
    ensures var s0 := Initial(lines, requesters, resolvers); var t := Run(s0, schedule, |schedule|);
      && NoEmptyWake(s0, schedule, |schedule|) && |t.resolvers| == resolvers
      && forall k | 0 <= k < resolvers :: t.resolvers[k] == Exited
  {
    var s0 := Initial(lines, requesters, resolvers);
    InitialInv(lines, requesters, resolvers);
    InitialAlways(lines, requesters, resolvers);
    var s := WorkIsDone(lines, requesters, resolvers);
    var t := LeadsOn(s0, s, Req(0));
    LeadsKeepsAlways(s0, t);
    BeginToLeave(s, t);
    t := AllLeave(s0, t, 0);
    LeadsKeepsShape(s0, t);
    schedule := SomeCalm(s0, t);
    SafeSoFar(s0, schedule, |schedule|);
  }
}
