/** The threads' critical sections as the program has them: updates in place of shared memory. */
module LookupThreads {
  import opened Machine
  import opened Lookup
  import opened LookupBuffer

  class Shared {
    const lines: seq<nat>
    const serviced: array<bool>
    const buffer: array<Entry>
    const requesters: array<Requester>
    const serviceCounts: array<nat>
    const resolvers: array<Resolver>
    var lock: Option<Thread>
    var roused: set<Thread>
    var currentPosition: int
    var threadsFinished: nat
    ghost var claims: seq<Claim>
    ghost var progress: seq<nat>
    ghost var taken: multiset<Entry>

    /** The state this memory stands for. */
    ghost function View(): State
      reads this, serviced, buffer, requesters, serviceCounts, resolvers
    {
      State(lines, requesters[..], serviceCounts[..], resolvers[..], serviced[..], lock, roused,
            buffer[..], currentPosition, threadsFinished, claims, progress, taken)
    }

    ghost predicate Valid()
      reads this, serviced, buffer, requesters, serviceCounts, resolvers
    {
      WellFormed(View())
    }

    /** `main`, up to the start of the threads. */
    constructor (lines: seq<nat>, requesterCount: nat, resolverCount: nat)
      requires |lines| > 0
      ensures Valid() && View() == Initial(lines, requesterCount, resolverCount)
      ensures fresh(serviced) && fresh(buffer) && fresh(requesters) && fresh(serviceCounts) && fresh(resolvers)
    {
      this.lines := lines;
      serviced := new bool[|lines|](i => false);
      buffer := new Entry[ARRAYSIZE](i => Entry(0, 0));
      requesters := new Requester[requesterCount](i => Claiming);
      serviceCounts := new nat[requesterCount](i => 0);
      resolvers := new Resolver[resolverCount](i => Outside);
      lock, roused, currentPosition, threadsFinished := None, {}, 0, 0;
      claims, progress, taken := [], seq(|lines|, i => 0), multiset{};
      new;
      assert View() == Initial(lines, requesterCount, resolverCount);
    }

    /** The requester's loop over the file list. */
    method ClaimFile(r: nat)
      requires Valid() && r < requesters.Length
      modifies this, serviced, requesters, serviceCounts
      ensures Valid() && View() == Lookup.ClaimFile(old(View()), r)
    {
      ghost var s := View();
      var i := 0;
      while i < serviced.Length
        invariant 0 <= i < serviced.Length && View() == s
        invariant FirstUnserviced(s.serviced, 0) == FirstUnserviced(s.serviced, i)
      {
        if !serviced[i] {
          serviced[i] := true;
          serviceCounts[r] := serviceCounts[r] + 1;
          requesters[r] := Locking(i);
          claims := claims + [Claim(r, i)];
          assert View() == Lookup.ClaimFile(s, r);
          return;
        }
        if i == serviced.Length - 1 {
          threadsFinished := threadsFinished + 1;
          roused := BroadcastEmpty(roused, resolvers[..]);
          requesters[r] := Finished;
          assert View() == Lookup.ClaimFile(s, r);
          return;
        }
        i := i + 1;
      }
      assert false;
    }

    method PushLine(r: nat, f: nat, next: nat, pick: nat)
      requires Valid() && r < requesters.Length && f < |lines| && currentPosition >= 0
      modifies this, buffer, requesters
      ensures Valid() && View() == Lookup.PushLine(old(View()), r, f, next, pick)
    {
      ghost var s := View();
      if next >= lines[f] {
        roused := SignalEmpty(roused, resolvers[..], pick);
        lock := None;
        requesters[r] := Claiming;
      } else if currentPosition == ARRAYSIZE {
        roused := SignalEmpty(roused, resolvers[..], pick);
        lock := None;
        requesters[r] := WaitFull(f, next);
      } else {
        buffer[currentPosition] := Entry(f, next);
        currentPosition := currentPosition + 1;
        progress := progress[f := next + 1];
        requesters[r] := Pushing(f, next + 1);
      }
      assert View() == Lookup.PushLine(s, r, f, next, pick);
    }

    method TakeEntry(k: nat) returns (name: Option<Entry>)
      requires Valid() && k < resolvers.Length && currentPosition >= 0
      modifies this, resolvers
      ensures Valid() && View() == Lookup.TakeEntry(old(View()), k)
      ensures name == if old(currentPosition) > 0 then Some(buffer[old(currentPosition) - 1]) else None
    {
      ghost var s := View();
      currentPosition := currentPosition - 1;
      if currentPosition >= 0 {
        name := Some(buffer[currentPosition]);
        taken := taken + multiset{buffer[currentPosition]};
      } else {
        name := None;
      }
      lock := None;
      resolvers[k] := Outside;
      assert View() == Lookup.TakeEntry(s, k);
    }

    method MoveRequester(r: nat, pick: nat)
      requires Valid() && r < requesters.Length && currentPosition >= 0
      modifies this, serviced, buffer, requesters, serviceCounts
      ensures Valid() && View() == Lookup.MoveRequester(old(View()), r, pick)
    {
      ghost var s := View();
      match requesters[r]
      case Claiming => ClaimFile(r);
      case Locking(f) =>
        if lock.None? {
          lock := Some(Req(r));
          requesters[r] := Pushing(f, 0);
          assert View() == Lookup.MoveRequester(s, r, pick);
        }
      case Pushing(f, next) => PushLine(r, f, next, pick);
      case WaitFull(f, next) =>
        if lock.None? && Req(r) in roused {
          lock := Some(Req(r));
          roused := roused - {Req(r)};
          requesters[r] := Pushing(f, next);
          assert View() == Lookup.MoveRequester(s, r, pick);
        }
      case Finished =>
    }

    method MoveResolver(k: nat, pick: nat)
      requires Valid() && k < resolvers.Length && currentPosition >= 0
      modifies this, resolvers
      ensures Valid() && View() == Lookup.MoveResolver(old(View()), k, pick)
    {
      ghost var s := View();
      match resolvers[k]
      case Outside =>
        if lock.None? {
          lock := Some(Res(k));
          resolvers[k] := Inside;
          assert View() == Lookup.MoveResolver(s, k, pick);
        }
      case Inside => LookIntoBuffer(k, pick);
      case Emptied =>
        roused := SignalFull(roused, requesters[..], pick);
        lock := None;
        resolvers[k] := WaitEmpty;
        assert View() == Lookup.MoveResolver(s, k, pick);
      case WaitEmpty =>
        if lock.None? && Res(k) in roused {
          lock := Some(Res(k));
          roused := roused - {Res(k)};
          resolvers[k] := Woken;
          assert View() == Lookup.MoveResolver(s, k, pick);
        }
      case Woken =>
        var name := TakeEntry(k);
      case Exited =>
    }

    /** With `buffer_lock` held: take an entry, or exit, or decide to wait. */
    method LookIntoBuffer(k: nat, pick: nat)
      requires Valid() && k < resolvers.Length && currentPosition >= 0 && resolvers[k] == Inside
      modifies this, resolvers
      ensures Valid() && View() == Lookup.MoveResolver(old(View()), k, pick)
    {
      ghost var s := View();
      if currentPosition != 0 {
        var name := TakeEntry(k);
      } else if threadsFinished == requesters.Length {
        lock := None;
        resolvers[k] := Exited;
        assert View() == Lookup.MoveResolver(s, k, pick);
      } else {
        resolvers[k] := Emptied;
        assert View() == Lookup.MoveResolver(s, k, pick);
      }
    }

    /** One thread moves. */
    method Step(t: Thread, pick: nat)
      requires Valid() && currentPosition >= 0
      modifies this, serviced, buffer, requesters, serviceCounts, resolvers
      ensures Valid() && View() == Lookup.Step(old(View()), t, pick)
    {
      match t
      case Req(r) =>
        if r < requesters.Length {
          MoveRequester(r, pick);
        }
      case Res(k) =>
        if k < resolvers.Length {
          MoveResolver(k, pick);
        }
    }

    predicate IsBlocked(t: Thread)
      reads this, requesters, resolvers
    {
      match t
      case Req(r) => RequesterBlocked(roused, requesters[..], r)
      case Res(k) => ResolverBlocked(roused, resolvers[..], k)
    }

    /** One event: a thread moves, or a waiting thread wakes for no reason. */
    method Happen(e: Event)
      requires Valid()
      modifies this, serviced, buffer, requesters, serviceCounts, resolvers
      ensures Valid() && View() == Move(old(View()), e)
    {
      if currentPosition >= 0 {
        match e
        case Go(t, pick) => Step(t, pick);
        case Spurious(t) =>
          if IsBlocked(t) {
            roused := roused + {t};
          }
      }
    }
  }

  /** The threads run in the order of the schedule; without an empty wake-up the stack is conserved. */
  method RunThreads(lines: seq<nat>, requesterCount: nat, resolverCount: nat, schedule: seq<Event>)
    returns (shared: Shared)
    requires |lines| > 0 && requesterCount > 0
    ensures shared.Valid() && shared.View() == Run(Initial(lines, requesterCount, resolverCount), schedule, |schedule|)
    ensures Conserved(shared.View())
       <==> NoEmptyWake(Initial(lines, requesterCount, resolverCount), schedule, |schedule|)
  {
    ghost var s := Initial(lines, requesterCount, resolverCount);
    shared := new Shared(lines, requesterCount, resolverCount);
    for n := 0 to |schedule|
      invariant shared.Valid() && shared.View() == Run(s, schedule, n)
      invariant fresh(shared) && fresh(shared.serviced) && fresh(shared.buffer) && fresh(shared.requesters)
      invariant fresh(shared.serviceCounts) && fresh(shared.resolvers)
    {
      shared.Happen(schedule[n]);
    }
    InitialInv(lines, requesterCount, resolverCount);
    SafeExactly(s, schedule, |schedule|);
  }
}
