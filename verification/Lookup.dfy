/**
 The requester and resolver threads of multi-lookup.c as a step system. A step of a thread
 is what it does between two lock operations; a schedule says which thread moves next, and
 which waiting threads wake for no reason. Waiting on a condition variable gives up
 `buffer_lock`. A waiting thread stays blocked until a signal or a broadcast reaches it, or
 until it wakes spuriously; it then goes on as soon as it gets the lock again.
 */
module Lookup {
  import opened Machine

  const ARRAYSIZE := 20

  /** A line of a file, as it travels through the shared buffer. */
  datatype Entry = Entry(file: nat, line: nat)

  /** `next` is the line that the requester has read and not yet pushed. */
  datatype Requester =
    | Claiming
    | Locking(file: nat)
    | Pushing(file: nat, next: nat)
    | WaitFull(file: nat, next: nat)
    | Finished

  /** `Emptied` holds the lock and has decided to wait; `Woken` holds it again after the wait. */
  datatype Resolver = Outside | Inside | Emptied | WaitEmpty | Woken | Exited

  datatype Thread = Req(id: nat) | Res(id: nat)

  /** If the step signals, the signal goes to thread `pick` if that one is blocked. */
  datatype Event = Go(thread: Thread, pick: nat) | Spurious(thread: Thread)

  datatype Claim = Claim(thread: nat, file: nat)

  /**
   `lines` is the length of each input file. `serviceCounts` are the requesters' local counters.
   `roused` are the waiting threads that a signal, a broadcast or a spurious wake-up has unblocked.
   `claims`, `progress` and `taken` record history: who claimed which file, how many lines
   of each file have been pushed, and which entries resolvers have taken.
   */
  datatype State = State(lines: seq<nat>, requesters: seq<Requester>, serviceCounts: seq<nat>, resolvers: seq<Resolver>,
                         serviced: seq<bool>, lock: Option<Thread>, roused: set<Thread>,
                         buffer: seq<Entry>, currentPosition: int, threadsFinished: nat,
                         claims: seq<Claim>, progress: seq<nat>, taken: multiset<Entry>)

  ghost predicate WellFormed(s: State) {
    && |s.lines| == |s.serviced| == |s.progress| > 0
    && |s.serviceCounts| == |s.requesters| && |s.buffer| == ARRAYSIZE
    && s.currentPosition <= ARRAYSIZE
    && forall r | 0 <= r < |s.requesters| && WorksOn(s.requesters[r]).Some? ::
         WorksOn(s.requesters[r]).value < |s.lines|
  }

  /** The file a requester has claimed and not finished. */
  function WorksOn(q: Requester): Option<nat> {
    match q
    case Claiming => None
    case Locking(f) => Some(f)
    case Pushing(f, _) => Some(f)
    case WaitFull(f, _) => Some(f)
    case Finished => None
  }

  /** `main`: at least one file and one thread of each kind. */
  function Initial(lines: seq<nat>, requesters: nat, resolvers: nat): (r: State)
    requires |lines| > 0
    ensures WellFormed(r)
  {
    State(lines, seq(requesters, i => Claiming), seq(requesters, i => 0), seq(resolvers, i => Outside),
          seq(|lines|, i => false), None, {},
          seq(ARRAYSIZE, i => Entry(0, 0)), 0, 0,
          [], seq(|lines|, i => 0), multiset{})
  }

  /** The scan of the file list, from file `i` on. */
  function FirstUnserviced(serviced: seq<bool>, i: nat): (r: Option<nat>)
    requires i <= |serviced|
    ensures r.Some? ==> i <= r.value < |serviced| && !serviced[r.value] && forall f | i <= f < r.value :: serviced[f]
    ensures r.None? ==> forall f | i <= f < |serviced| :: serviced[f]
    decreases |serviced| - i
  {
    if i == |serviced| then None
    else if !serviced[i] then Some(i)
    else FirstUnserviced(serviced, i + 1)
  }

  function SetRequester(s: State, r: nat, q: Requester): State
    requires r < |s.requesters|
  {
    s.(requesters := s.requesters[r := q])
  }

  function SetResolver(s: State, k: nat, q: Resolver): State
    requires k < |s.resolvers|
  {
    s.(resolvers := s.resolvers[k := q])
  }

  // ---------- Condition variables ----------

  predicate ResolverBlocked(roused: set<Thread>, resolvers: seq<Resolver>, k: nat) {
    k < |resolvers| && resolvers[k] == WaitEmpty && Res(k) !in roused
  }

  predicate RequesterBlocked(roused: set<Thread>, requesters: seq<Requester>, r: nat) {
    r < |requesters| && requesters[r].WaitFull? && Req(r) !in roused
  }

  /** The thread waits and nothing has unblocked it. */
  predicate Blocked(s: State, t: Thread) {
    match t
    case Req(r) => RequesterBlocked(s.roused, s.requesters, r)
    case Res(k) => ResolverBlocked(s.roused, s.resolvers, k)
  }

  function FirstBlockedResolver(roused: set<Thread>, resolvers: seq<Resolver>, k: nat): Option<nat>
    requires k <= |resolvers|
    decreases |resolvers| - k
  {
    if k == |resolvers| then None
    else if ResolverBlocked(roused, resolvers, k) then Some(k)
    else FirstBlockedResolver(roused, resolvers, k + 1)
  }

  function FirstBlockedRequester(roused: set<Thread>, requesters: seq<Requester>, r: nat): Option<nat>
    requires r <= |requesters|
    decreases |requesters| - r
  {
    if r == |requesters| then None
    else if RequesterBlocked(roused, requesters, r) then Some(r)
    else FirstBlockedRequester(roused, requesters, r + 1)
  }

  /** A signal on `isEmpty` unblocks one waiting resolver, if there is one. */
  function SignalEmpty(roused: set<Thread>, resolvers: seq<Resolver>, pick: nat): set<Thread> {
    if ResolverBlocked(roused, resolvers, pick) then roused + {Res(pick)}
    else
      match FirstBlockedResolver(roused, resolvers, 0)
      case Some(k) => roused + {Res(k)}
      case None => roused
  }

  /** A signal on `isFull` unblocks one waiting requester, if there is one. */
  function SignalFull(roused: set<Thread>, requesters: seq<Requester>, pick: nat): set<Thread> {
    if RequesterBlocked(roused, requesters, pick) then roused + {Req(pick)}
    else
      match FirstBlockedRequester(roused, requesters, 0)
      case Some(r) => roused + {Req(r)}
      case None => roused
  }

  /** A broadcast on `isEmpty` unblocks every waiting resolver. */
  function BroadcastEmpty(roused: set<Thread>, resolvers: seq<Resolver>): set<Thread> {
    roused + set k | 0 <= k < |resolvers| && resolvers[k] == WaitEmpty :: Res(k)
  }

  // ---------- Steps ----------

  /** Under `file_lock`: the first unserviced file is claimed, or else the thread finishes and broadcasts. */
  function ClaimFile(s: State, r: nat): (t: State)
    requires WellFormed(s) && r < |s.requesters|
    ensures WellFormed(t)
  {
    match FirstUnserviced(s.serviced, 0)
    case Some(f) =>
      SetRequester(s, r, Locking(f)).(serviced := s.serviced[f := true],
                                      serviceCounts := s.serviceCounts[r := s.serviceCounts[r] + 1],
                                      claims := s.claims + [Claim(r, f)])
    case None =>
      SetRequester(s, r, Finished).(threadsFinished := s.threadsFinished + 1,
                                    roused := BroadcastEmpty(s.roused, s.resolvers))
  }

  /**
   With `buffer_lock` held: push the next line, or signal and wait for room, or signal and
   leave after the last line.
   */
  function PushLine(s: State, r: nat, f: nat, next: nat, pick: nat): (t: State)
    requires WellFormed(s) && r < |s.requesters| && f < |s.lines| && s.currentPosition >= 0
    ensures WellFormed(t)
  {
    if next >= s.lines[f] then
      SetRequester(s, r, Claiming).(lock := None, roused := SignalEmpty(s.roused, s.resolvers, pick))
    else if s.currentPosition == ARRAYSIZE then
      SetRequester(s, r, WaitFull(f, next)).(lock := None, roused := SignalEmpty(s.roused, s.resolvers, pick))
    else
      SetRequester(s, r, Pushing(f, next + 1)).(buffer := s.buffer[s.currentPosition := Entry(f, next)],
                                                currentPosition := s.currentPosition + 1,
                                                progress := s.progress[f := next + 1])
  }

  function MoveRequester(s: State, r: nat, pick: nat): (t: State)
    requires WellFormed(s) && r < |s.requesters| && s.currentPosition >= 0
    ensures WellFormed(t)
  {
    match s.requesters[r]
    case Claiming => ClaimFile(s, r)
    case Locking(f) => if s.lock.None? then SetRequester(s, r, Pushing(f, 0)).(lock := Some(Req(r))) else s
    case Pushing(f, next) => PushLine(s, r, f, next, pick)
    case WaitFull(f, next) =>
      if s.lock.None? && Req(r) in s.roused
      then SetRequester(s, r, Pushing(f, next)).(lock := Some(Req(r)), roused := s.roused - {Req(r)})
      else s
    case Finished => s
  }

  /** With `buffer_lock` held: take the topmost entry, whatever the position, and leave. */
  function TakeEntry(s: State, k: nat): (t: State)
    requires WellFormed(s) && k < |s.resolvers| && s.currentPosition >= 0
    ensures WellFormed(t)
  {
    var position := s.currentPosition - 1;
    SetResolver(s, k, Outside).(lock := None, currentPosition := position,
                                taken := if position >= 0 then s.taken + multiset{s.buffer[position]} else s.taken)
  }

  function MoveResolver(s: State, k: nat, pick: nat): (t: State)
    requires WellFormed(s) && k < |s.resolvers| && s.currentPosition >= 0
    ensures WellFormed(t)
  {
    match s.resolvers[k]
    case Outside => if s.lock.None? then SetResolver(s, k, Inside).(lock := Some(Res(k))) else s
    case Inside =>
      if s.currentPosition != 0 then TakeEntry(s, k)
      else if s.threadsFinished == |s.requesters| then SetResolver(s, k, Exited).(lock := None)
      else SetResolver(s, k, Emptied)
    case Emptied => SetResolver(s, k, WaitEmpty).(lock := None, roused := SignalFull(s.roused, s.requesters, pick))
    case WaitEmpty =>
      if s.lock.None? && Res(k) in s.roused
      then SetResolver(s, k, Woken).(lock := Some(Res(k)), roused := s.roused - {Res(k)})
      else s
    case Woken => TakeEntry(s, k)
    case Exited => s
  }

  /** One step of a thread; a thread that cannot move leaves everything as it is. */
  function Step(s: State, t: Thread, pick: nat): (r: State)
    requires WellFormed(s) && s.currentPosition >= 0
    ensures WellFormed(r)
  {
    match t
    case Req(r) => if r < |s.requesters| then MoveRequester(s, r, pick) else s
    case Res(k) => if k < |s.resolvers| then MoveResolver(s, k, pick) else s
  }

  /**
   One event. Once the position is negative, what the C program does is undefined, and
   nothing moves any more.
   */
  function Move(s: State, e: Event): (r: State)
    requires WellFormed(s)
    ensures WellFormed(r)
  {
    if s.currentPosition < 0 then s
    else match e
      case Go(t, pick) => Step(s, t, pick)
      case Spurious(t) => if Blocked(s, t) then s.(roused := s.roused + {t}) else s
  }

  /** The state after the first `n` events of a schedule. */
  function Run(s: State, schedule: seq<Event>, n: nat): (r: State)
    requires WellFormed(s) && n <= |schedule|
    ensures WellFormed(r)
  {
    if n == 0 then s else Move(Run(s, schedule, n - 1), schedule[n - 1])
  }

  /** A resolver that has come back from its wait to an empty buffer is about to take from it. */
  predicate EmptyWake(s: State, e: Event) {
    e.Go? && e.thread.Res? && e.thread.id < |s.resolvers| && s.resolvers[e.thread.id] == Woken && s.currentPosition == 0
  }

  /** Moves that are not bad keep `P`. */
  ghost predicate MovesKeep(P: State -> bool, bad: (State, Event) -> bool) {
    forall s, e | P(s) && !bad(s, e) :: WellFormed(s) && P(Move(s, e))
  }

  /** No move among the first `n` is bad. */
  ghost predicate NoneBad(bad: (State, Event) -> bool, s: State, schedule: seq<Event>, n: nat)
    requires WellFormed(s) && n <= |schedule|
  {
    forall i | 0 <= i < n :: !bad(Run(s, schedule, i), schedule[i])
  }

  lemma {:induction false} RunKeeps(P: State -> bool, bad: (State, Event) -> bool,
                                    s: State, schedule: seq<Event>, n: nat)
    requires WellFormed(s) && P(s) && n <= |schedule|
    requires MovesKeep(P, bad) && NoneBad(bad, s, schedule, n)
    ensures P(Run(s, schedule, n))
  {
    if n > 0 {
      RunKeeps(P, bad, s, schedule, n - 1);
    }
  }

  ghost predicate MoveKeeps(P: State -> bool, e: Event) {
    forall s | P(s) :: WellFormed(s) && P(Move(s, e))
  }

  ghost predicate AllMovesKeep(P: State -> bool) {
    forall e :: MoveKeeps(P, e)
  }

  lemma MoveKeepsOne(P: State -> bool, s: State, e: Event)
    requires AllMovesKeep(P) && P(s) && WellFormed(s)
    ensures P(Move(s, e))
  {
    assert MoveKeeps(P, e);
  }

  /** Once `P` holds it keeps holding. */
  lemma {:induction false} RunKeepsOn(P: State -> bool, s: State, schedule: seq<Event>, m: nat, n: nat)
    requires WellFormed(s) && m <= n <= |schedule| && P(Run(s, schedule, m)) && AllMovesKeep(P)
    ensures P(Run(s, schedule, n))
    decreases n
  {
    if m < n {
      RunKeepsOn(P, s, schedule, m, n - 1);
      MoveKeepsOne(P, Run(s, schedule, n - 1), schedule[n - 1]);
    }
  }

  /** Bad moves lead to `P`. */
  ghost predicate BadLeadsTo(P: State -> bool, bad: (State, Event) -> bool) {
    forall s, e | WellFormed(s) && bad(s, e) :: P(Move(s, e))
  }

  lemma SomeBad(bad: (State, Event) -> bool, s: State, schedule: seq<Event>, n: nat) returns (i: nat)
    requires WellFormed(s) && n <= |schedule| && !NoneBad(bad, s, schedule, n)
    ensures i < n && bad(Run(s, schedule, i), schedule[i])
  {
    i :| 0 <= i < n && bad(Run(s, schedule, i), schedule[i]);
  }

  lemma BadNow(P: State -> bool, bad: (State, Event) -> bool, s: State, schedule: seq<Event>, i: nat)
    requires WellFormed(s) && i < |schedule| && BadLeadsTo(P, bad) && bad(Run(s, schedule, i), schedule[i])
    ensures P(Run(s, schedule, i + 1))
  {
  }

  /** After a bad move `P` holds for good. */
  lemma BadStays(P: State -> bool, bad: (State, Event) -> bool, s: State, schedule: seq<Event>, n: nat)
    requires WellFormed(s) && n <= |schedule| && AllMovesKeep(P) && BadLeadsTo(P, bad)
    requires !NoneBad(bad, s, schedule, n)
    ensures P(Run(s, schedule, n))
  {
    var i := SomeBad(bad, s, schedule, n);
    HoldsFrom(P, bad, s, schedule, i, n);
  }

  lemma HoldsFrom(P: State -> bool, bad: (State, Event) -> bool, s: State, schedule: seq<Event>, i: nat, n: nat)
    requires WellFormed(s) && i < n <= |schedule| && AllMovesKeep(P) && BadLeadsTo(P, bad)
    requires bad(Run(s, schedule, i), schedule[i])
    ensures P(Run(s, schedule, n))
  {
    BadNow(P, bad, s, schedule, i);
    RunKeepsOn(P, s, schedule, i + 1, n);
  }
}
