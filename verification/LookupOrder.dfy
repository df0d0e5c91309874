/**
 Order in the name resolver: files are claimed in the order of the list, lines go on and off the top of the stack, and
 which threads each event unblocks.
 */
module LookupOrder {
  import opened Machine
  import opened Lookup
  import opened LookupFiles
  import opened LookupHazards

  // ---------- Files ----------

  /** The claimed files are the first ones of the list, and have been claimed in this order. */
  ghost predicate ClaimedInOrder(s: State) {
    && |s.claims| <= |s.serviced|
    && (forall i | 0 <= i < |s.claims| :: s.claims[i].file == i)
    && forall f | 0 <= f < |s.serviced| :: s.serviced[f] <==> f < |s.claims|
  }

  lemma FirstIsNext(serviced: seq<bool>, n: nat)
    requires n <= |serviced| && forall f | 0 <= f < |serviced| :: serviced[f] <==> f < n
    ensures FirstUnserviced(serviced, 0) == if n < |serviced| then Some(n) else None
  {
    assert n < |serviced| ==> !serviced[n];
  }

  lemma ClaimIsNext(s: State, r: nat)
    requires WellFormed(s) && ClaimedInOrder(s) && r < |s.requesters|
    ensures ClaimedInOrder(ClaimFile(s, r))
  {
    FirstIsNext(s.serviced, |s.claims|);
  }

  lemma OthersClaimNothing(s: State, e: Event)
    requires WellFormed(s)
    requires e.Go? && e.thread.Req? && e.thread.id < |s.requesters| ==> s.requesters[e.thread.id] != Claiming
    ensures Move(s, e).claims == s.claims && Move(s, e).serviced == s.serviced
  {
  }

  lemma MoveKeepsOrder(s: State, e: Event)
    requires WellFormed(s) && ClaimedInOrder(s)
    ensures ClaimedInOrder(Move(s, e))
  {
    if e.Go? && e.thread.Req? && e.thread.id < |s.requesters| && s.requesters[e.thread.id] == Claiming {
      ClaimIsNext(s, e.thread.id);
    } else {
      OthersClaimNothing(s, e);
    }
  }

  ghost predicate OrderKept(s: State) {
    WellFormed(s) && ClaimedInOrder(s)
  }

  /** In every schedule the files are claimed in the order of the list. */
  lemma ClaimsInOrder(lines: seq<nat>, requesters: nat, resolvers: nat, schedule: seq<Event>, n: nat)
    requires |lines| > 0 && n <= |schedule|
    ensures ClaimedInOrder(Run(Initial(lines, requesters, resolvers), schedule, n))
  {
    forall e
      ensures MoveKeeps(OrderKept, e)
    {
      forall u | OrderKept(u)
        ensures OrderKept(Move(u, e))
      {
        MoveKeepsOrder(u, e);
      }
    }
    RunKeepsOn(OrderKept, Initial(lines, requesters, resolvers), schedule, 0, n);
  }

  // ---------- The stack ----------

  /** What is on the stack, the top at the end. */
  function Stack(s: State): (r: seq<Entry>)
    requires 0 <= s.currentPosition <= |s.buffer|
    ensures |r| == s.currentPosition
  {
    s.buffer[..s.currentPosition]
  }

  /** The line that a requester with the lock pushes next. */
  function NextEntry(q: Requester): Entry {
    if q.Pushing? then Entry(q.file, q.next) else Entry(0, 0)
  }

  /** The requester has the lock and a line to push, and there is room. */
  ghost predicate Pushes(s: State, e: Event)
    requires WellFormed(s)
  {
    && e.Go? && e.thread.Req? && e.thread.id < |s.requesters| && s.requesters[e.thread.id].Pushing?
    && s.requesters[e.thread.id].next < s.lines[s.requesters[e.thread.id].file] && s.currentPosition < 20
  }

  /** The resolver has the lock, and has come back from its wait or seen that there are lines. */
  ghost predicate Takes(s: State, e: Event) {
    && e.Go? && e.thread.Res? && e.thread.id < |s.resolvers|
    && (s.resolvers[e.thread.id] == Woken || (s.resolvers[e.thread.id] == Inside && s.currentPosition != 0))
  }

  /** A push puts the requester's next line on top, a take removes the top, and nothing else touches the stack. */
  lemma StackDiscipline(s: State, e: Event)
    requires WellFormed(s) && s.currentPosition >= 0
    ensures var t := Move(s, e);
      if Pushes(s, e) then
        && 0 <= t.currentPosition <= |t.buffer| && Stack(t) == Stack(s) + [NextEntry(s.requesters[e.thread.id])]
        && t.taken == s.taken
      else if Takes(s, e) then
        if s.currentPosition == 0 then t.currentPosition == -1 && t.taken == s.taken
        else
          && 0 <= t.currentPosition <= |t.buffer| && Stack(t) == Stack(s)[..s.currentPosition - 1]
          && t.taken == s.taken + multiset{Stack(s)[s.currentPosition - 1]}
      else 0 <= t.currentPosition <= |t.buffer| && Stack(t) == Stack(s) && t.taken == s.taken
  {
  }

  /** A requester begins to wait for room if and only if it has a line to push and the buffer is full. */
  lemma WaitsWhenFull(s: State, r: nat, pick: nat)
    requires WellFormed(s) && s.currentPosition >= 0 && r < |s.requesters| && !s.requesters[r].WaitFull?
    ensures Move(s, Go(Req(r), pick)).requesters[r].WaitFull?
      <==> s.requesters[r].Pushing? && s.requesters[r].next < s.lines[s.requesters[r].file] && s.currentPosition == 20
  {
  }

  /** Lines of one file lie on the stack in their order, and none of a file beyond what has been pushed. */
  ghost predicate LinesInOrder(s: State) {
    && WellFormed(s) && 0 <= s.currentPosition <= |s.buffer|
    && (forall i | 0 <= i < s.currentPosition :: s.buffer[i].file < |s.progress|)
    && (forall i | 0 <= i < s.currentPosition :: s.buffer[i].line < s.progress[s.buffer[i].file])
    && forall i, j | 0 <= i < j < s.currentPosition && s.buffer[i].file == s.buffer[j].file ::
         s.buffer[i].line < s.buffer[j].line
  }

  lemma OneMoreOnTop(s: State, t: State, f: nat, next: nat)
    requires LinesInOrder(s) && WellFormed(t) && |t.progress| == |s.progress| && f < |s.progress|
    requires s.currentPosition < |s.buffer| && t.buffer == s.buffer[s.currentPosition := Entry(f, next)]
    requires t.currentPosition == s.currentPosition + 1
    requires s.progress[f] == next && t.progress == s.progress[f := next + 1]
    ensures LinesInOrder(t)
  {
  }

  lemma NoMoreOnTop(s: State, t: State)
    requires LinesInOrder(s) && WellFormed(t) && t.progress == s.progress && t.buffer == s.buffer
    requires 0 <= t.currentPosition <= s.currentPosition
    ensures LinesInOrder(t)
  {
  }

  lemma PushInOrder(s: State, r: nat, pick: nat)
    requires FilesInv(s) && LinesInOrder(s) && r < |s.requesters|
    ensures LinesInOrder(MoveRequester(s, r, pick))
  {
    var t, q := MoveRequester(s, r, pick), s.requesters[r];
    assert KnowsProgress(s, q);
    if Pushes(s, Go(Req(r), pick)) {
      OneMoreOnTop(s, t, q.file, q.next);
    } else {
      NoMoreOnTop(s, t);
    }
  }

  lemma TakeInOrder(s: State, k: nat, pick: nat)
    requires LinesInOrder(s) && k < |s.resolvers|
    ensures var t := MoveResolver(s, k, pick); t.currentPosition >= 0 ==> LinesInOrder(t)
  {
    if MoveResolver(s, k, pick).currentPosition >= 0 {
      NoMoreOnTop(s, MoveResolver(s, k, pick));
    }
  }

  ghost predicate StackInv(s: State) {
    FilesInv(s) && (s.currentPosition >= 0 ==> LinesInOrder(s))
  }

  lemma MoveKeepsLines(s: State, e: Event)
    requires StackInv(s)
    ensures StackInv(Move(s, e))
  {
    MoveKeepsFiles(s, e);
    if s.currentPosition >= 0 && e.Go? {
      match e.thread
      case Req(r) =>
        if r < |s.requesters| {
          PushInOrder(s, r, e.pick);
        }
      case Res(k) =>
        if k < |s.resolvers| {
          TakeInOrder(s, k, e.pick);
        }
    }
  }

  /** In every schedule, as long as nothing has been taken from an empty buffer. */
  lemma StackInOrder(lines: seq<nat>, requesters: nat, resolvers: nat, schedule: seq<Event>, n: nat)
    requires |lines| > 0 && n <= |schedule|
    ensures var s := Run(Initial(lines, requesters, resolvers), schedule, n); s.currentPosition >= 0 ==> LinesInOrder(s)
  {
    InitialFiles(lines, requesters, resolvers);
    forall e
      ensures MoveKeeps(StackInv, e)
    {
      forall u | StackInv(u)
        ensures StackInv(Move(u, e))
      {
        MoveKeepsLines(u, e);
      }
    }
    RunKeepsOn(StackInv, Initial(lines, requesters, resolvers), schedule, 0, n);
  }

  // ---------- Who is unblocked ----------

  ghost predicate UnblocksOnly(s: State, t: State, x: Thread) {
    Blocked(s, x) && !Blocked(t, x) && forall y | y != x && Blocked(s, y) :: Blocked(t, y)
  }

  ghost predicate UnblocksNone(s: State, t: State) {
    forall x | Blocked(s, x) :: Blocked(t, x)
  }

  /** One waiting resolver is unblocked, the picked one if it waits, and no other thread. */
  ghost predicate WakesResolver(s: State, t: State, pick: nat) {
    if exists k: nat :: Blocked(s, Res(k))
    then exists k: nat :: UnblocksOnly(s, t, Res(k)) && (Blocked(s, Res(pick)) ==> k == pick)
    else UnblocksNone(s, t)
  }

  ghost predicate WakesRequester(s: State, t: State, pick: nat) {
    if exists r: nat :: Blocked(s, Req(r))
    then exists r: nat :: UnblocksOnly(s, t, Req(r)) && (Blocked(s, Req(pick)) ==> r == pick)
    else UnblocksNone(s, t)
  }

  lemma SignalWakesResolver(s: State, t: State, pick: nat)
    requires t.roused == SignalEmpty(s.roused, s.resolvers, pick) && forall y | Blocked(s, y) :: Waits(t, y)
    ensures WakesResolver(s, t, pick)
  {
    SignalEmptyReachesOne(s, pick);
    if exists k: nat :: Blocked(s, Res(k)) {
      var k: nat := pick;
      if !Blocked(s, Res(pick)) {
        k :| Blocked(s, Res(k)) && t.roused == s.roused + {Res(k)};
      }
      assert UnblocksOnly(s, t, Res(k));
    }
  }

  lemma SignalWakesRequester(s: State, t: State, pick: nat)
    requires t.roused == SignalFull(s.roused, s.requesters, pick) && forall y | Blocked(s, y) :: Waits(t, y)
    ensures WakesRequester(s, t, pick)
  {
    SignalFullReachesOne(s, pick);
    if exists r: nat :: Blocked(s, Req(r)) {
      var r: nat := pick;
      if !Blocked(s, Req(pick)) {
        r :| Blocked(s, Req(r)) && t.roused == s.roused + {Req(r)};
      }
      assert UnblocksOnly(s, t, Req(r));
    }
  }

  /** A blocked thread does not move. */
  lemma BlockedRequesters(s: State, r: nat, pick: nat, y: Thread)
    requires WellFormed(s) && s.currentPosition >= 0 && r < |s.requesters| && Blocked(s, y)
    ensures Waits(MoveRequester(s, r, pick), y)
  {
  }

  lemma BlockedResolvers(s: State, k: nat, pick: nat, y: Thread)
    requires WellFormed(s) && s.currentPosition >= 0 && k < |s.resolvers| && Blocked(s, y)
    ensures Waits(MoveResolver(s, k, pick), y)
  {
  }

  lemma PushingUnblocks(s: State, r: nat, pick: nat)
    requires WellFormed(s) && s.currentPosition >= 0 && r < |s.requesters| && s.requesters[r].Pushing?
    ensures var t := MoveRequester(s, r, pick);
      if t.requesters[r].Pushing? then t.roused == s.roused else t.roused == SignalEmpty(s.roused, s.resolvers, pick)
  {
  }

  lemma FinishUnblocks(s: State, r: nat)
    requires WellFormed(s) && r < |s.requesters| && s.requesters[r] == Claiming
    requires ClaimFile(s, r).requesters[r].Finished?
    ensures var t := ClaimFile(s, r);
      (forall k: nat :: !Blocked(t, Res(k))) && forall x: nat | Blocked(s, Req(x)) :: Blocked(t, Req(x))
  {
    BroadcastReachesAll(s);
    var t := ClaimFile(s, r);
    var u := s.(roused := BroadcastEmpty(s.roused, s.resolvers));
    assert forall k: nat :: Blocked(t, Res(k)) <==> Blocked(u, Res(k));
    assert forall x: nat | Blocked(s, Req(x)) :: Blocked(u, Req(x)) && x != r;
  }

  /** What a requester's moves unblock: at the end of a file or of the room one resolver, at its own end all of them. */
  lemma RequesterUnblocks(s: State, r: nat, pick: nat)
    requires WellFormed(s) && s.currentPosition >= 0 && r < |s.requesters|
    ensures var t := Move(s, Go(Req(r), pick)); var q := s.requesters[r];
      if q.Pushing? && !t.requesters[r].Pushing? then WakesResolver(s, t, pick)
      else if q.Claiming? && t.requesters[r].Finished? then
        (forall k: nat :: !Blocked(t, Res(k))) && forall x: nat | Blocked(s, Req(x)) :: Blocked(t, Req(x))
      else UnblocksNone(s, t)
  {
    forall y | Blocked(s, y)
      ensures Waits(MoveRequester(s, r, pick), y)
    {
      BlockedRequesters(s, r, pick, y);
    }
    if s.requesters[r].Pushing? {
      PushingUnblocks(s, r, pick);
      if !MoveRequester(s, r, pick).requesters[r].Pushing? {
        SignalWakesResolver(s, MoveRequester(s, r, pick), pick);
      }
    } else if s.requesters[r].Claiming? && ClaimFile(s, r).requesters[r].Finished? {
      FinishUnblocks(s, r);
    }
  }

  /** What a resolver's moves unblock: one requester when it begins to wait. */
  lemma ResolverUnblocks(s: State, k: nat, pick: nat)
    requires WellFormed(s) && s.currentPosition >= 0 && k < |s.resolvers|
    ensures var t := Move(s, Go(Res(k), pick));
      if s.resolvers[k] == Emptied then WakesRequester(s, t, pick) else UnblocksNone(s, t)
  {
    forall y | Blocked(s, y)
      ensures Waits(MoveResolver(s, k, pick), y)
    {
      BlockedResolvers(s, k, pick, y);
    }
    if s.resolvers[k] == Emptied {
      SignalWakesRequester(s, MoveResolver(s, k, pick), pick);
    }
  }

  /** A spurious wake-up unblocks the thread that it names. */
  lemma SpuriousUnblocks(s: State, x: Thread)
    requires WellFormed(s) && s.currentPosition >= 0
    ensures if Blocked(s, x) then UnblocksOnly(s, Move(s, Spurious(x)), x) else Move(s, Spurious(x)) == s
  {
  }
}
