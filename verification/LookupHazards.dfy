/**
 What goes wrong when the work is done: a resolver does not look at the buffer again after
 its wait, and the last requester counts itself as finished without holding `buffer_lock`. For
 every set of files and every number of threads, some schedule without spurious wake-ups takes
 from an empty buffer, and another one leaves a resolver waiting for ever.
 */
module LookupHazards {
  import opened Lookup
  import opened LookupFiles
  import opened LookupBuffer

  // ---------- Condition variables ----------

  lemma {:induction false} FirstBlockedResolverIs(s: State, k: nat)
    requires k <= |s.resolvers|
    ensures match FirstBlockedResolver(s.roused, s.resolvers, k)
      case Some(i) => k <= i && Blocked(s, Res(i))
      case None => forall i | k <= i :: !Blocked(s, Res(i))
    decreases |s.resolvers| - k
  {
    if k < |s.resolvers| {
      FirstBlockedResolverIs(s, k + 1);
    }
  }

  lemma {:induction false} FirstBlockedRequesterIs(s: State, r: nat)
    requires r <= |s.requesters|
    ensures match FirstBlockedRequester(s.roused, s.requesters, r)
      case Some(i) => r <= i && Blocked(s, Req(i))
      case None => forall i | r <= i :: !Blocked(s, Req(i))
    decreases |s.requesters| - r
  {
    if r < |s.requesters| {
      FirstBlockedRequesterIs(s, r + 1);
    }
  }

  /** A signal on `isEmpty` unblocks exactly one waiting resolver, whichever it is, and nothing if none waits. */
  lemma SignalEmptyReachesOne(s: State, pick: nat)
    ensures if exists k :: Blocked(s, Res(k))
      then exists k :: Blocked(s, Res(k)) && SignalEmpty(s.roused, s.resolvers, pick) == s.roused + {Res(k)}
      else SignalEmpty(s.roused, s.resolvers, pick) == s.roused
    ensures Blocked(s, Res(pick)) ==> SignalEmpty(s.roused, s.resolvers, pick) == s.roused + {Res(pick)}
  {
    FirstBlockedResolverIs(s, 0);
  }

  /** The same for `isFull` and the requesters. */
  lemma SignalFullReachesOne(s: State, pick: nat)
    ensures if exists r :: Blocked(s, Req(r))
      then exists r :: Blocked(s, Req(r)) && SignalFull(s.roused, s.requesters, pick) == s.roused + {Req(r)}
      else SignalFull(s.roused, s.requesters, pick) == s.roused
    ensures Blocked(s, Req(pick)) ==> SignalFull(s.roused, s.requesters, pick) == s.roused + {Req(pick)}
  {
    FirstBlockedRequesterIs(s, 0);
  }

  /** A broadcast on `isEmpty` leaves no resolver blocked, and no requester is affected. */
  lemma BroadcastReachesAll(s: State)
    ensures var t := s.(roused := BroadcastEmpty(s.roused, s.resolvers));
      && (forall k :: !Blocked(t, Res(k)))
      && (forall r :: Blocked(t, Req(r)) <==> Blocked(s, Req(r)))
  {
    forall k
      ensures Res(k) in BroadcastEmpty(s.roused, s.resolvers) <==> Res(k) in s.roused || Blocked(s, Res(k))
    {
    }
  }

  // ---------- Resolvers that are left over ----------

  /** Only waiting threads are ever unblocked. */
  ghost predicate RousedWait(s: State) {
    forall t | t in s.roused :: Waits(s, t)
  }

  predicate Waits(s: State, t: Thread) {
    match t
    case Req(r) => r < |s.requesters| && s.requesters[r].WaitFull?
    case Res(k) => k < |s.resolvers| && s.resolvers[k] == WaitEmpty
  }

  lemma SignalsReachWaiters(s: State, pick: nat)
    ensures forall t | t in SignalEmpty(s.roused, s.resolvers, pick) :: t in s.roused || Waits(s, t)
    ensures forall t | t in SignalFull(s.roused, s.requesters, pick) :: t in s.roused || Waits(s, t)
  {
    FirstBlockedResolverIs(s, 0);
    FirstBlockedRequesterIs(s, 0);
  }

  lemma RequesterKeepsRoused(s: State, r: nat, pick: nat)
    requires WellFormed(s) && RousedWait(s) && s.currentPosition >= 0 && r < |s.requesters|
    ensures RousedWait(MoveRequester(s, r, pick))
  {
    SignalsReachWaiters(s, pick);
    assert Req(r) in s.roused ==> Waits(s, Req(r));
  }

  lemma ResolverKeepsRoused(s: State, k: nat, pick: nat)
    requires WellFormed(s) && RousedWait(s) && s.currentPosition >= 0 && k < |s.resolvers|
    ensures RousedWait(MoveResolver(s, k, pick))
  {
    SignalsReachWaiters(s, pick);
    assert Res(k) in s.roused ==> Waits(s, Res(k));
  }

  lemma MoveKeepsRoused(s: State, e: Event)
    requires WellFormed(s) && RousedWait(s)
    ensures RousedWait(Move(s, e))
  {
    if s.currentPosition >= 0 && e.Go? {
      match e.thread
      case Req(r) =>
        if r < |s.requesters| {
          RequesterKeepsRoused(s, r, e.pick);
        }
      case Res(k) =>
        if k < |s.resolvers| {
          ResolverKeepsRoused(s, k, e.pick);
        }
    }
  }

  lemma RunKeepsRoused(s: State, schedule: seq<Event>, n: nat)
    requires WellFormed(s) && RousedWait(s) && n <= |schedule|
    ensures RousedWait(Run(s, schedule, n))
  {
    var P := (t: State) => WellFormed(t) && RousedWait(t);
    forall e
      ensures MoveKeeps(P, e)
    {
      forall u | P(u)
        ensures P(Move(u, e))
      {
        MoveKeepsRoused(u, e);
      }
    }
    RunKeepsOn(P, s, schedule, 0, n);
  }

  /** All requesters have finished and the buffer is empty, but resolver `k` is not on its way to find that out. */
  ghost predicate Stranded(s: State, k: nat) {
    && FilesInv(s) && |s.requesters| > 0 && s.threadsFinished == |s.requesters|
    && k < |s.resolvers| && s.resolvers[k] in {Emptied, WaitEmpty, Woken}
    && s.currentPosition == 0
  }

  lemma StrandedMove(s: State, k: nat, e: Event)
    requires Stranded(s, k)
    ensures Move(s, e).currentPosition < 0 || Stranded(Move(s, e), k)
  {
    MoveKeepsFiles(s, e);
    MoveKeepsShape(s, e);
    NoPushNow(s, e);
    FinishedMeansServed(s);
  }

  ghost function LostOrStranded(k: nat): State -> bool {
    t => WellFormed(t) && (t.currentPosition < 0 || Stranded(t, k))
  }

  /** Such a resolver never exits: it waits for ever, or some resolver takes from the empty buffer. */
  lemma StrandedForever(s: State, k: nat, schedule: seq<Event>, n: nat)
    requires Stranded(s, k) && n <= |schedule|
    ensures var t := Run(s, schedule, n); t.currentPosition < 0 || Stranded(t, k)
  {
    var P := LostOrStranded(k);
    forall e
      ensures MoveKeeps(P, e)
    {
      forall u | P(u)
        ensures P(Move(u, e))
      {
        Underflow(u, e);
        if u.currentPosition >= 0 {
          StrandedMove(u, k, e);
        }
      }
    }
    RunKeepsOn(P, s, schedule, 0, n);
    assert P(Run(s, schedule, n));
  }

  /** Once it is unblocked, as every broadcast does to all waiting resolvers, its next step is such a take. */
  lemma StrandedUnderflows(s: State, k: nat, pick: nat)
    requires Stranded(s, k) && s.resolvers[k] == WaitEmpty && Res(k) in s.roused && s.lock.None?
    ensures var t := Move(s, Go(Res(k), pick));
      EmptyWake(t, Go(Res(k), pick)) && Move(t, Go(Res(k), pick)).currentPosition == -1
  {
  }

  /** The last broadcast came before the wait: nothing is left that could unblock the resolver. */
  ghost predicate Missed(s: State, k: nat) {
    && FilesInv(s) && RousedWait(s) && |s.requesters| > 0 && s.threadsFinished == |s.requesters|
    && k < |s.resolvers| && s.resolvers[k] in {Emptied, WaitEmpty} && Res(k) !in s.roused
  }

  /** When all requesters have finished, nobody waits for room. */
  lemma NobodyToSignal(s: State, pick: nat)
    requires forall r | 0 <= r < |s.requesters| :: !s.requesters[r].WaitFull?
    ensures SignalFull(s.roused, s.requesters, pick) == s.roused
  {
    FirstBlockedRequesterIs(s, 0);
  }

  lemma MissedResolver(s: State, k: nat, j: nat, pick: nat)
    requires WellFormed(s) && s.currentPosition >= 0 && j < |s.resolvers|
    requires SignalFull(s.roused, s.requesters, pick) == s.roused
    requires k < |s.resolvers| && s.resolvers[k] in {Emptied, WaitEmpty} && Res(k) !in s.roused
    ensures var t := MoveResolver(s, j, pick); t.resolvers[k] in {Emptied, WaitEmpty} && Res(k) !in t.roused
    ensures MoveResolver(s, j, pick).threadsFinished == s.threadsFinished
  {
  }

  lemma MissedStep(s: State, k: nat, e: Event)
    requires WellFormed(s) && k < |s.resolvers| && s.resolvers[k] in {Emptied, WaitEmpty} && Res(k) !in s.roused
    requires (forall r | 0 <= r < |s.requesters| :: s.requesters[r].Finished?) && e != Spurious(Res(k))
    ensures var t := Move(s, e); t.resolvers[k] in {Emptied, WaitEmpty} && Res(k) !in t.roused
    ensures Move(s, e).threadsFinished == s.threadsFinished
  {
    if e.Go? && e.thread.Res? && e.thread.id < |s.resolvers| && s.currentPosition >= 0 {
      NobodyToSignal(s, e.pick);
      MissedResolver(s, k, e.thread.id, e.pick);
    }
  }

  lemma MissedMove(s: State, k: nat, e: Event)
    requires Missed(s, k) && e != Spurious(Res(k))
    ensures Missed(Move(s, e), k)
  {
    MoveKeepsFiles(s, e);
    MoveKeepsShape(s, e);
    MoveKeepsRoused(s, e);
    FinishedMeansServed(s);
    MissedStep(s, k, e);
  }

  ghost function WakesSpuriously(k: nat): (State, Event) -> bool {
    (s, e) => e == Spurious(Res(k))
  }

  ghost function MissedBy(k: nat): State -> bool {
    s => WellFormed(s) && Missed(s, k)
  }

  /** It waits for ever, unless it wakes for no reason. */
  lemma MissedForever(s: State, k: nat, schedule: seq<Event>, n: nat)
    requires Missed(s, k) && n <= |schedule| && forall i | 0 <= i < n :: schedule[i] != Spurious(Res(k))
    ensures Missed(Run(s, schedule, n), k)
  {
    var P, bad := MissedBy(k), WakesSpuriously(k);
    forall u, e | P(u) && !bad(u, e)
      ensures P(Move(u, e))
    {
      MissedMove(u, k, e);
    }
    RunKeeps(P, bad, s, schedule, n);
    assert P(Run(s, schedule, n));
  }

  /** A wake-up can also be stolen: the signalled resolver finds that another one has taken the line. */
  lemma StolenWakeUp(s: State, k: nat, j: nat)
    requires WellFormed(s) && k < |s.resolvers| && j < |s.resolvers| && j != k
    requires s.resolvers[k] == WaitEmpty && Res(k) in s.roused && s.resolvers[j] == Outside
    requires s.lock.None? && s.currentPosition == 1
    ensures var t := Move(Move(s, Go(Res(j), 0)), Go(Res(j), 0));
      Move(Move(t, Go(Res(k), 0)), Go(Res(k), 0)).currentPosition == -1
  {
    var t := Move(Move(s, Go(Res(j), 0)), Go(Res(j), 0));
    assert t.resolvers[k] == WaitEmpty && Res(k) in t.roused && t.lock.None? && t.currentPosition == 0;
  }
}
