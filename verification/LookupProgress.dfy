/**
 Progress, without any assumption of fairness: a run has a bounded number of moves, and as long as some
 requester has not finished, some thread can move. So every run that does not take from an empty
 buffer comes to the same end, with every line taken once.
 */
module LookupProgress {
  import opened Sums
  import opened Lookup
  import opened LookupFiles
  import opened LookupBuffer
  import opened LookupHazards
  import opened LookupExits

  // ---------- Somebody can move ----------

  ghost predicate AllBlocked(s: State) {
    forall k | 0 <= k < |s.resolvers| :: Blocked(s, Res(k))
  }

  /** If requesters wait for room, one of them has been unblocked. */
  ghost predicate RoomAnnounced(s: State) {
    (exists r: nat :: Blocked(s, Req(r))) ==> exists r: nat :: Req(r) in s.roused
  }

  /** When all resolvers wait for lines there are none, and the last one of them has signalled `isFull`. */
  ghost predicate HandedOn(s: State) {
    s.lock.None? && AllBlocked(s) ==> s.currentPosition == 0 && RoomAnnounced(s)
  }

  ghost predicate EmptiedInv(s: State) {
    forall k | 0 <= k < |s.resolvers| :: s.resolvers[k] == Emptied ==> s.currentPosition == 0
  }

  ghost predicate ProgressKept(s: State) {
    AlwaysInv(s) && |s.requesters| > 0 && |s.resolvers| > 0 && HandedOn(s) && EmptiedInv(s)
  }

  /** After a signal on `isEmpty` some resolver is not blocked. */
  lemma SignalLeavesOne(s: State, t: State, pick: nat)
    requires |s.resolvers| > 0 && t.resolvers == s.resolvers
    requires t.roused == SignalEmpty(s.roused, s.resolvers, pick)
    ensures !AllBlocked(t)
  {
    SignalEmptyReachesOne(s, pick);
    assert Blocked(s, Res(0)) || !Blocked(t, Res(0));
  }

  lemma SignalAnnouncesRoom(s: State, t: State, pick: nat)
    requires t.requesters == s.requesters && t.roused == SignalFull(s.roused, s.requesters, pick)
    ensures RoomAnnounced(t)
  {
    SignalFullReachesOne(s, pick);
    if r: nat :| Blocked(t, Req(r)) {
      assert Blocked(s, Req(r));
    }
  }

  lemma BroadcastLeavesOne(s: State, t: State)
    requires |s.resolvers| > 0 && t.resolvers == s.resolvers && t.roused == BroadcastEmpty(s.roused, s.resolvers)
    ensures !AllBlocked(t)
  {
    BroadcastReachesAll(s);
    assert !Blocked(t, Res(0));
  }

  lemma ClaimHandsOn(s: State, r: nat)
    requires WellFormed(s) && HandedOn(s) && |s.resolvers| > 0 && r < |s.requesters| && s.requesters[r] == Claiming
    ensures HandedOn(ClaimFile(s, r))
  {
    var t := ClaimFile(s, r);
    if FirstUnserviced(s.serviced, 0).None? {
      BroadcastLeavesOne(s, t);
    } else {
      assert forall k :: Blocked(t, Res(k)) <==> Blocked(s, Res(k));
      assert forall q :: Blocked(t, Req(q)) <==> Blocked(s, Req(q));
    }
  }

  lemma PushHandsOn(s: State, r: nat, f: nat, next: nat, pick: nat)
    requires WellFormed(s) && |s.resolvers| > 0 && s.currentPosition >= 0 && s.lock.Some?
    requires r < |s.requesters| && f < |s.lines|
    ensures HandedOn(PushLine(s, r, f, next, pick))
  {
    var t := PushLine(s, r, f, next, pick);
    if t.lock.None? {
      SignalLeavesOne(s, t, pick);
    }
  }

  lemma RequesterHandsOn(s: State, r: nat, pick: nat)
    requires WellFormed(s) && LockInv(s) && HandedOn(s) && |s.resolvers| > 0
    requires s.currentPosition >= 0 && r < |s.requesters|
    ensures HandedOn(MoveRequester(s, r, pick))
  {
    match s.requesters[r]
    case Claiming => ClaimHandsOn(s, r);
    case Pushing(f, next) => PushHandsOn(s, r, f, next, pick);
    case _ =>
  }

  lemma WaitHandsOn(s: State, k: nat, pick: nat)
    requires WellFormed(s) && EmptiedInv(s) && s.currentPosition >= 0
    requires k < |s.resolvers| && s.resolvers[k] == Emptied
    ensures HandedOn(MoveResolver(s, k, pick))
  {
    SignalAnnouncesRoom(s, MoveResolver(s, k, pick), pick);
  }

  lemma ResolverHandsOn(s: State, k: nat, pick: nat)
    requires WellFormed(s) && EmptiedInv(s) && HandedOn(s)
    requires s.currentPosition >= 0 && k < |s.resolvers|
    ensures HandedOn(MoveResolver(s, k, pick))
  {
    var t := MoveResolver(s, k, pick);
    if s.resolvers[k] == Emptied {
      WaitHandsOn(s, k, pick);
    } else if t != s && t.lock.None? {
      assert !Blocked(t, Res(k));
    }
  }

  lemma SpuriousHandsOn(s: State, t: Thread)
    requires WellFormed(s) && HandedOn(s)
    ensures HandedOn(Move(s, Spurious(t)))
  {
    var u := Move(s, Spurious(t));
    if u != s {
      if AllBlocked(u) {
        assert forall k | 0 <= k < |s.resolvers| :: Blocked(u, Res(k)) ==> Blocked(s, Res(k));
        assert forall r: nat :: Blocked(u, Req(r)) ==> Blocked(s, Req(r));
      }
    }
  }

  lemma MoveHandsOn(s: State, e: Event)
    requires WellFormed(s) && LockInv(s) && EmptiedInv(s) && HandedOn(s) && |s.resolvers| > 0
    ensures HandedOn(Move(s, e))
  {
    if s.currentPosition >= 0 {
      match e
      case Spurious(t) => SpuriousHandsOn(s, t);
      case Go(Req(r), pick) =>
        if r < |s.requesters| {
          RequesterHandsOn(s, r, pick);
        }
      case Go(Res(k), pick) =>
        if k < |s.resolvers| {
          ResolverHandsOn(s, k, pick);
        }
    }
  }

  lemma MoveKeepsEmptied(s: State, e: Event)
    requires WellFormed(s) && LockInv(s) && EmptiedInv(s)
    ensures EmptiedInv(Move(s, e))
  {
  }

  lemma MoveKeepsProgress(s: State, e: Event)
    requires ProgressKept(s)
    ensures ProgressKept(Move(s, e))
  {
    MoveKeepsAlways(s, e);
    MoveKeepsShape(s, e);
    MoveHandsOn(s, e);
    MoveKeepsEmptied(s, e);
  }

  lemma RunKeepsProgress(s: State, schedule: seq<Event>, n: nat)
    requires ProgressKept(s) && n <= |schedule|
    ensures ProgressKept(Run(s, schedule, n))
  {
    forall e
      ensures MoveKeeps(ProgressKept, e)
    {
      forall u | ProgressKept(u)
        ensures ProgressKept(Move(u, e))
      {
        MoveKeepsProgress(u, e);
      }
    }
    RunKeepsOn(ProgressKept, s, schedule, 0, n);
  }

  /** No thread can move, spurious wake-ups apart. */
  ghost predicate Stuck(s: State)
    requires WellFormed(s)
  {
    forall t, pick: nat :: Move(s, Go(t, pick)) == s
  }

  /** All requesters have finished, and each resolver has exited or waits with nothing left to unblock it. */
  ghost predicate AtEnd(s: State) {
    && s.threadsFinished == |s.requesters|
    && forall k | 0 <= k < |s.resolvers| :: s.resolvers[k] == Exited || Blocked(s, Res(k))
  }

  lemma HolderCanMove(s: State)
    requires WellFormed(s) && HolderInv(s) && s.currentPosition >= 0 && s.lock.Some?
    ensures Move(s, Go(s.lock.value, 0)) != s
  {
    var t := Move(s, Go(s.lock.value, 0));
    match s.lock.value
    case Req(r) => assert t.requesters[r] != s.requesters[r];
    case Res(k) => assert t.resolvers[k] != s.resolvers[k];
  }

  lemma ResolverCanMove(s: State, k: nat)
    requires WellFormed(s) && LockInv(s) && s.currentPosition >= 0 && s.lock.None? && k < |s.resolvers|
    requires s.resolvers[k] != Exited && !Blocked(s, Res(k))
    ensures Move(s, Go(Res(k), 0)) != s
  {
    assert Move(s, Go(Res(k), 0)).lock.Some?;
  }

  lemma RequesterCanMove(s: State, r: nat)
    requires WellFormed(s) && LockInv(s) && s.currentPosition >= 0 && s.lock.None? && r < |s.requesters|
    requires !s.requesters[r].Finished? && !Blocked(s, Req(r))
    ensures Move(s, Go(Req(r), 0)) != s
  {
    assert Move(s, Go(Req(r), 0)).requesters[r] != s.requesters[r];
  }

  lemma {:induction false} SomeUnfinished(requesters: seq<Requester>, n: nat) returns (r: nat)
    requires n <= |requesters| && FinishedTo(requesters, n) != n
    ensures r < n && !requesters[r].Finished?
  {
    r := n - 1;
    if requesters[r].Finished? {
      r := SomeUnfinished(requesters, n - 1);
    }
  }

  /** When all resolvers wait, some requester can still move. */
  lemma SomeRequesterCanMove(s: State)
    requires ProgressKept(s) && s.currentPosition >= 0 && s.lock.None? && AllBlocked(s)
    requires s.threadsFinished != |s.requesters|
    ensures !Stuck(s)
  {
    var r := SomeUnfinished(s.requesters, |s.requesters|);
    if Blocked(s, Req(r)) {
      r :| Req(r) in s.roused;
      assert Waits(s, Req(r));
    }
    RequesterCanMove(s, r);
  }

  lemma OnlyAtEnd(s: State)
    requires ProgressKept(s) && Inv(s) && Stuck(s)
    ensures AtEnd(s)
  {
    if s.lock.Some? {
      HolderCanMove(s);
    }
    forall k | 0 <= k < |s.resolvers|
      ensures s.resolvers[k] == Exited || Blocked(s, Res(k))
    {
      if s.resolvers[k] != Exited && !Blocked(s, Res(k)) {
        ResolverCanMove(s, k);
      }
    }
    if s.threadsFinished != |s.requesters| {
      SomeRequesterCanMove(s);
    }
  }

  lemma EndIsStuck(s: State, t: Thread, pick: nat)
    requires FilesInv(s) && |s.requesters| > 0 && AtEnd(s)
    ensures Move(s, Go(t, pick)) == s
  {
    FinishedMeansServed(s);
  }

  /** No thread can move if and only if the run is at its end: there is no deadlock before. */
  lemma StuckExactly(s: State)
    requires ProgressKept(s) && Inv(s)
    ensures Stuck(s) <==> AtEnd(s)
  {
    if Stuck(s) {
      OnlyAtEnd(s);
    }
    if AtEnd(s) {
      forall t, pick: nat
        ensures Move(s, Go(t, pick)) == s
      {
        EndIsStuck(s, t, pick);
      }
    }
  }

  /** At the end the buffer is empty. */
  lemma EndIsEmpty(s: State)
    requires ProgressKept(s) && Inv(s) && AtEnd(s)
    ensures s.currentPosition == 0
  {
    if s.lock.Some? {
      OverHolder(s);
      assert false;
    }
    if !(exists k :: 0 <= k < |s.resolvers| && s.resolvers[k] == Exited) {
      assert AllBlocked(s);
    }
  }

  // ---------- And only for so long ----------

  /** How much a requester can still do before it claims its next file. */
  function RequesterRank(q: Requester, roused: bool): nat {
    match q
    case Claiming => 1
    case Locking(_) => 3
    case Pushing(_, _) => 2
    case WaitFull(_, _) => if roused then 3 else 1
    case Finished => 0
  }

  /** How much a resolver can still do before it takes its next line. */
  function ResolverRank(a: Resolver): nat {
    match a
    case Outside => 6
    case Inside => 5
    case Emptied => 4
    case WaitEmpty => 1
    case Woken => 0
    case Exited => 0
  }

  function RequesterRanks(requesters: seq<Requester>, roused: set<Thread>): (ranks: seq<int>)
    ensures |ranks| == |requesters|
    ensures forall r | 0 <= r < |ranks| :: ranks[r] == RequesterRank(requesters[r], Req(r) in roused)
  {
    seq(|requesters|, r requires 0 <= r < |requesters| => RequesterRank(requesters[r], Req(r) in roused))
  }

  function ResolverRanks(resolvers: seq<Resolver>): (ranks: seq<int>)
    ensures |ranks| == |resolvers| && forall k | 0 <= k < |ranks| :: ranks[k] == ResolverRank(resolvers[k])
  {
    seq(|resolvers|, k requires 0 <= k < |resolvers| => ResolverRank(resolvers[k]))
  }

  /** How many lines of each file have not been pushed. */
  function LinesLeft(lines: seq<int>, progress: seq<int>): (left: seq<int>)
    requires |lines| == |progress|
    ensures |left| == |lines| && forall f | 0 <= f < |left| :: left[f] == lines[f] - progress[f]
  {
    seq(|lines|, f requires 0 <= f < |lines| => lines[f] - progress[f])
  }

  /** A bound on the moves that are left. */
  function Work(s: State): int
    requires WellFormed(s)
  {
    8 * Sum(LinesLeft(s.lines, s.progress)) + 7 * (s.currentPosition + 1)
    + 3 * (|s.serviced| - ServicedTo(s.serviced, |s.serviced|))
    + Sum(RequesterRanks(s.requesters, s.roused)) + Sum(ResolverRanks(s.resolvers))
  }
  /** Only requester `r` has moved; resolvers may have been unblocked. */
  ghost predicate OnlyRequester(s: State, t: State, r: nat) {
    && WellFormed(s) && WellFormed(t) && t.lines == s.lines && t.resolvers == s.resolvers
    && r < |s.requesters| && |t.requesters| == |s.requesters| && t.requesters == s.requesters[r := t.requesters[r]]
    && (forall i: nat | i != r :: Req(i) in t.roused <==> Req(i) in s.roused)
    && (Req(r) in t.roused ==> Req(r) in s.roused)
  }

  lemma RequesterMovesAlone(s: State, r: nat, pick: nat)
    requires WellFormed(s) && s.currentPosition >= 0 && r < |s.requesters|
    ensures OnlyRequester(s, MoveRequester(s, r, pick), r)
  {
  }

  ghost function RankChange(s: State, t: State, r: nat): int
    requires r < |s.requesters| && r < |t.requesters|
  {
    RequesterRank(t.requesters[r], Req(r) in t.roused) - RequesterRank(s.requesters[r], Req(r) in s.roused)
  }

  lemma RequesterRanksChange(s: State, t: State, r: nat)
    requires OnlyRequester(s, t, r)
    ensures Sum(RequesterRanks(t.requesters, t.roused))
         == Sum(RequesterRanks(s.requesters, s.roused)) + RankChange(s, t, r)
  {
    var before, after := RequesterRanks(s.requesters, s.roused), RequesterRanks(t.requesters, t.roused);
    assert after == before[r := after[r]];
    SumUpdate(before, |before|, r, after[r]);
  }

  lemma RankOnly(s: State, t: State, r: nat)
    requires OnlyRequester(s, t, r) && RankChange(s, t, r) < 0
    requires t.progress == s.progress && t.currentPosition == s.currentPosition && t.serviced == s.serviced
    ensures Work(t) < Work(s)
  {
    RequesterRanksChange(s, t, r);
  }

  lemma ClaimIsWork(s: State, t: State, r: nat, f: nat)
    requires OnlyRequester(s, t, r) && RankChange(s, t, r) <= 2
    requires t.progress == s.progress && t.currentPosition == s.currentPosition
    requires f < |s.serviced| && !s.serviced[f] && t.serviced == s.serviced[f := true]
    ensures Work(t) < Work(s)
  {
    RequesterRanksChange(s, t, r);
    ServicedUpdate(s.serviced, |s.serviced|, f);
  }

  lemma PushIsWork(s: State, t: State, r: nat, f: nat)
    requires OnlyRequester(s, t, r) && RankChange(s, t, r) == 0
    requires f < |s.lines| && t.progress == s.progress[f := s.progress[f] + 1]
    requires t.currentPosition == s.currentPosition + 1 && t.serviced == s.serviced
    ensures Work(t) < Work(s)
  {
    RequesterRanksChange(s, t, r);
    var before, after := LinesLeft(s.lines, s.progress), LinesLeft(t.lines, t.progress);
    assert after == before[f := before[f] - 1];
    SumUpdate(before, |before|, f, before[f] - 1);
  }

  lemma RequesterWorks(s: State, r: nat, pick: nat)
    requires FilesInv(s) && RousedWait(s) && s.currentPosition >= 0 && r < |s.requesters|
    ensures MoveRequester(s, r, pick) == s || Work(MoveRequester(s, r, pick)) < Work(s)
  {
    var t := MoveRequester(s, r, pick);
    RequesterMovesAlone(s, r, pick);
    if t != s {
      if s.requesters[r].Claiming? && t.requesters[r].Locking? {
        ClaimIsWork(s, t, r, t.requesters[r].file);
      } else if s.requesters[r].Pushing? && t.requesters[r].Pushing? {
        assert KnowsProgress(s, s.requesters[r]);
        PushIsWork(s, t, r, s.requesters[r].file);
      } else {
        assert Req(r) in s.roused ==> Waits(s, Req(r));
        RankOnly(s, t, r);
      }
    }
  }
  /** Only resolver `k` has moved, and at most one more requester has been unblocked. */
  ghost predicate OnlyResolver(s: State, t: State, k: nat) {
    && WellFormed(s) && WellFormed(t) && OnlyMoved(s, t, k) && t.requesters == s.requesters
    && t.lines == s.lines && t.progress == s.progress && t.serviced == s.serviced
  }

  lemma ResolverRanksChange(s: State, t: State, k: nat)
    requires OnlyResolver(s, t, k)
    ensures Sum(ResolverRanks(t.resolvers))
         == Sum(ResolverRanks(s.resolvers)) + ResolverRank(t.resolvers[k]) - ResolverRank(s.resolvers[k])
  {
    var before, after := ResolverRanks(s.resolvers), ResolverRanks(t.resolvers);
    assert after == before[k := after[k]];
    SumUpdate(before, |before|, k, after[k]);
  }

  /** No requester is unblocked by the move. */
  lemma SameRequesterRanks(s: State, t: State, k: nat)
    requires OnlyResolver(s, t, k) && forall i: nat :: Req(i) in t.roused <==> Req(i) in s.roused
    ensures RequesterRanks(t.requesters, t.roused) == RequesterRanks(s.requesters, s.roused)
  {
  }

  /** A signal on `isFull` lets one requester go on. */
  lemma SignalIsWork(s: State, pick: nat)
    ensures Sum(RequesterRanks(s.requesters, SignalFull(s.roused, s.requesters, pick)))
         <= Sum(RequesterRanks(s.requesters, s.roused)) + 2
  {
    SignalFullReachesOne(s, pick);
    var roused := SignalFull(s.roused, s.requesters, pick);
    if roused != s.roused {
      var r: nat :| Blocked(s, Req(r)) && roused == s.roused + {Req(r)};
      var before, after := RequesterRanks(s.requesters, s.roused), RequesterRanks(s.requesters, roused);
      assert after == before[r := after[r]];
      SumUpdate(before, |before|, r, after[r]);
    }
  }

  lemma WaitIsWork(s: State, k: nat, pick: nat)
    requires WellFormed(s) && s.currentPosition >= 0 && k < |s.resolvers| && s.resolvers[k] == Emptied
    ensures Work(MoveResolver(s, k, pick)) < Work(s)
  {
    ResolverRanksChange(s, MoveResolver(s, k, pick), k);
    SignalIsWork(s, pick);
  }

  lemma ResolverWorks(s: State, k: nat, pick: nat)
    requires WellFormed(s) && s.currentPosition >= 0 && k < |s.resolvers|
    ensures MoveResolver(s, k, pick) == s || Work(MoveResolver(s, k, pick)) < Work(s)
  {
    var t := MoveResolver(s, k, pick);
    if s.resolvers[k] == Emptied {
      WaitIsWork(s, k, pick);
    } else if t != s {
      ResolverRanksChange(s, t, k);
      SameRequesterRanks(s, t, k);
    }
  }

  lemma SpuriousIsWork(s: State, t: Thread)
    requires WellFormed(s)
    ensures Work(Move(s, Spurious(t))) <= Work(s) + 2
  {
    var u := Move(s, Spurious(t));
    var before, after := RequesterRanks(s.requesters, s.roused), RequesterRanks(u.requesters, u.roused);
    if u != s && t.Req? {
      assert after == before[t.id := after[t.id]];
      SumUpdate(before, |before|, t.id, after[t.id]);
    } else {
      assert after == before;
    }
  }

  /** A thread moves. */
  ghost function ThreadMoves(): (State, Event) -> bool {
    (s: State, e: Event) => WellFormed(s) && e.Go? && Move(s, e) != s
  }

  /** How many of the first `n` events are such. */
  ghost function Count(which: (State, Event) -> bool, s: State, schedule: seq<Event>, n: nat): nat
    requires WellFormed(s) && n <= |schedule|
  {
    if n == 0 then 0
    else Count(which, s, schedule, n - 1) + (if which(Run(s, schedule, n - 1), schedule[n - 1]) then 1 else 0)
  }

  /** The event does some of the work if it is one of `moves`, and adds at most two moves if it is one of `extra`. */
  ghost predicate Pays(moves: (State, Event) -> bool, extra: (State, Event) -> bool, work: State -> int,
                       s: State, e: Event)
    requires WellFormed(s)
  {
    (if moves(s, e) then 1 else 0) + work(Move(s, e)) <= work(s) + (if extra(s, e) then 2 else 0)
  }

  /** In states that satisfy `P` every event pays, and keeps `P`. */
  ghost predicate AllPay(P: State -> bool, moves: (State, Event) -> bool, extra: (State, Event) -> bool,
                         work: State -> int) {
    forall s, e | P(s) :: WellFormed(s) && P(Move(s, e)) && Pays(moves, extra, work, s, e)
  }

  lemma PayOnce(P: State -> bool, moves: (State, Event) -> bool, extra: (State, Event) -> bool,
                work: State -> int, s: State, e: Event, t: State)
    requires WellFormed(s) && P(s) && AllPay(P, moves, extra, work) && t == Move(s, e)
    ensures P(t) && (if moves(s, e) then 1 else 0) + work(t) <= work(s) + (if extra(s, e) then 2 else 0)
  {
    assert Pays(moves, extra, work, s, e);
  }

  lemma {:induction false} PaysAddUp(P: State -> bool, moves: (State, Event) -> bool, extra: (State, Event) -> bool,
                                     work: State -> int, s: State, schedule: seq<Event>, n: nat)
    requires WellFormed(s) && P(s) && n <= |schedule| && AllPay(P, moves, extra, work)
    ensures P(Run(s, schedule, n))
    ensures Count(moves, s, schedule, n) + work(Run(s, schedule, n)) <= work(s) + 2 * Count(extra, s, schedule, n)
  {
    if n > 0 {
      PaysAddUp(P, moves, extra, work, s, schedule, n - 1);
      PayOnce(P, moves, extra, work, Run(s, schedule, n - 1), schedule[n - 1], Run(s, schedule, n));
    }
  }

  ghost function WorkLeft(): State -> int {
    s => if WellFormed(s) then Work(s) else 0
  }

  /** A move does some of the work, and a spurious wake-up can add two moves. */
  lemma MovePays(s: State, e: Event)
    requires FilesInv(s) && RousedWait(s)
    ensures Pays(ThreadMoves(), IsSpurious(), WorkLeft(), s, e)
  {
    if s.currentPosition >= 0 {
      match e
      case Spurious(t) => SpuriousIsWork(s, t);
      case Go(Req(r), pick) =>
        if r < |s.requesters| {
          RequesterWorks(s, r, pick);
        }
      case Go(Res(k), pick) =>
        if k < |s.resolvers| {
          ResolverWorks(s, k, pick);
        }
    }
  }

  lemma MovesAreWork(s: State, schedule: seq<Event>, n: nat)
    requires AlwaysInv(s) && n <= |schedule|
    ensures Count(ThreadMoves(), s, schedule, n) + WorkLeft()(Run(s, schedule, n))
         <= WorkLeft()(s) + 2 * Count(IsSpurious(), s, schedule, n)
  {
    var moves, extra, work := ThreadMoves(), IsSpurious(), WorkLeft();
    forall u, e | AlwaysInv(u)
      ensures AlwaysInv(Move(u, e)) && Pays(moves, extra, work, u, e)
    {
      MoveKeepsAlways(u, e);
      MovePays(u, e);
    }
    PaysAddUp(AlwaysInv, moves, extra, work, s, schedule, n);
  }

  ghost predicate AtLeastMinusOne(s: State) {
    WellFormed(s) && s.currentPosition >= -1
  }

  lemma MoveKeepsBound(s: State, e: Event)
    requires AtLeastMinusOne(s)
    ensures AtLeastMinusOne(Move(s, e))
  {
  }

  lemma PositionBound(s: State, schedule: seq<Event>, n: nat)
    requires AtLeastMinusOne(s) && n <= |schedule|
    ensures AtLeastMinusOne(Run(s, schedule, n))
  {
    forall e
      ensures MoveKeeps(AtLeastMinusOne, e)
    {
      forall u | AtLeastMinusOne(u)
        ensures AtLeastMinusOne(Move(u, e))
      {
        MoveKeepsBound(u, e);
      }
    }
    RunKeepsOn(AtLeastMinusOne, s, schedule, 0, n);
  }

  lemma WorkNotNegative(s: State)
    requires FilesInv(s) && s.currentPosition >= -1
    ensures Work(s) >= 0
  {
    SumNotNegative(LinesLeft(s.lines, s.progress), |s.lines|);
    SumNotNegative(RequesterRanks(s.requesters, s.roused), |s.requesters|);
    SumNotNegative(ResolverRanks(s.resolvers), |s.resolvers|);
  }

  lemma InitialWork(lines: seq<nat>, requesters: nat, resolvers: nat)
    requires |lines| > 0
    ensures Work(Initial(lines, requesters, resolvers)) == 8 * Sum(lines) + 3 * |lines| + requesters + 6 * resolvers + 7
  {
    var s := Initial(lines, requesters, resolvers);
    assert LinesLeft(s.lines, s.progress) == lines;
    NoneServiced(s.serviced, |s.serviced|);
    SumOfEqual(RequesterRanks(s.requesters, s.roused), requesters, 1);
    SumOfEqual(ResolverRanks(s.resolvers), resolvers, 6);
  }

  // ---------- From the start ----------

  /** In every schedule the number of moves is bounded by the work there is and the spurious wake-ups. */
  lemma RunsAreBounded(lines: seq<nat>, requesters: nat, resolvers: nat, schedule: seq<Event>, n: nat)
    requires |lines| > 0 && n <= |schedule|
    ensures var s := Initial(lines, requesters, resolvers);
      Count(ThreadMoves(), s, schedule, n)
      <= 8 * Sum(lines) + 3 * |lines| + requesters + 6 * resolvers + 7 + 2 * Count(IsSpurious(), s, schedule, n)
  {
    var s := Initial(lines, requesters, resolvers);
    InitialAlways(lines, requesters, resolvers);
    InitialWork(lines, requesters, resolvers);
    MovesAreWork(s, schedule, n);
    RunKeepsAlways(s, schedule, n);
    PositionBound(s, schedule, n);
    WorkNotNegative(Run(s, schedule, n));
  }

  /** Every line of every file has been pushed, and taken exactly once. */
  ghost predicate AllTaken(s: State) {
    && WellFormed(s)
    && (forall f | 0 <= f < |s.lines| :: Claimed(s.claims, f) && s.progress[f] == s.lines[f])
    && forall e: Entry :: s.taken[e] == Pushed(s.lines, e)
  }

  lemma InitialProgress(lines: seq<nat>, requesters: nat, resolvers: nat)
    requires |lines| > 0 && requesters > 0 && resolvers > 0
    ensures ProgressKept(Initial(lines, requesters, resolvers))
  {
    InitialAlways(lines, requesters, resolvers);
    assert !Blocked(Initial(lines, requesters, resolvers), Res(0));
  }

  lemma EndHasAll(s: State)
    requires ProgressKept(s) && Inv(s) && AtEnd(s)
    ensures AllTaken(s)
  {
    EndIsEmpty(s);
    FinishedMeansServed(s);
    Drained(s);
  }

  /**
   In every schedule, unless a resolver has taken from an empty buffer, the threads can go on until all requesters
   have finished and each resolver has exited or waits for ever; and then every line has been taken exactly once.
   */
  lemma RunsEndAlike(lines: seq<nat>, requesters: nat, resolvers: nat, schedule: seq<Event>, n: nat)
    requires |lines| > 0 && requesters > 0 && resolvers > 0 && n <= |schedule|
    requires NoEmptyWake(Initial(lines, requesters, resolvers), schedule, n)
    ensures var t := Run(Initial(lines, requesters, resolvers), schedule, n);
      && t.lines == lines && (Stuck(t) <==> AtEnd(t)) && (Stuck(t) ==> AllTaken(t))
  {
    var s := Initial(lines, requesters, resolvers);
    InitialProgress(lines, requesters, resolvers);
    RunKeepsProgress(s, schedule, n);
    InitialInv(lines, requesters, resolvers);
    SafeRun(s, schedule, n);
    RunKeepsShape(s, schedule, n);
    var t := Run(s, schedule, n);
    StuckExactly(t);
    if Stuck(t) {
      EndHasAll(t);
    }
  }
}
