/** Exactly-once file service, in every interleaving. */
module LookupFiles {
  import opened Machine
  import opened Sums
  import opened Lookup

  // ---------- What every move keeps ----------

  /** Requesters work on different files, all of them marked as serviced. */
  ghost predicate WorkInv(s: State)
    requires WellFormed(s)
  {
    && (forall r | 0 <= r < |s.requesters| && WorksOn(s.requesters[r]).Some? ::
          s.serviced[WorksOn(s.requesters[r]).value])
    && (forall r, r' | 0 <= r < r' < |s.requesters| ::
          WorksOn(s.requesters[r]).Some? ==> WorksOn(s.requesters[r]) != WorksOn(s.requesters[r']))
  }

  ghost predicate Claimed(claims: seq<Claim>, f: nat) {
    exists i :: 0 <= i < |claims| && claims[i].file == f
  }

  /** How many of the first `n` claims are requester `r`'s. */
  function ClaimsBy(claims: seq<Claim>, r: nat, n: nat): nat
    requires n <= |claims|
  {
    if n == 0 then 0 else ClaimsBy(claims, r, n - 1) + (if claims[n - 1].thread == r then 1 else 0)
  }

  /** How many of the first `n` files are marked as serviced. */
  function ServicedTo(serviced: seq<bool>, n: nat): (c: nat)
    requires n <= |serviced|
    ensures c == n ==> forall f | 0 <= f < n :: serviced[f]
    ensures c <= n
  {
    if n == 0 then 0 else ServicedTo(serviced, n - 1) + (if serviced[n - 1] then 1 else 0)
  }

  /** No file is claimed twice, the serviced files are the claimed ones, and each requester counts its own claims. */
  ghost predicate ClaimsInv(s: State)
    requires WellFormed(s)
  {
    && (forall i | 0 <= i < |s.claims| :: s.claims[i].thread < |s.requesters| && s.claims[i].file < |s.lines|)
    && (forall i, j | 0 <= i < j < |s.claims| :: s.claims[i].file != s.claims[j].file)
    && (forall f | 0 <= f < |s.lines| :: s.serviced[f] <==> Claimed(s.claims, f))
    && ServicedTo(s.serviced, |s.serviced|) == |s.claims|
    && (forall r | 0 <= r < |s.requesters| :: s.serviceCounts[r] == ClaimsBy(s.claims, r, |s.claims|))
  }

  /** How many of the first `n` requesters have finished. */
  function FinishedTo(requesters: seq<Requester>, n: nat): (c: nat)
    requires n <= |requesters|
    ensures c <= n
  {
    if n == 0 then 0 else FinishedTo(requesters, n - 1) + (if requesters[n - 1].Finished? then 1 else 0)
  }

  /** `threadsFinished` counts the finished requesters, and they finish only when all files are serviced. */
  ghost predicate FinishInv(s: State)
    requires WellFormed(s)
  {
    && s.threadsFinished == FinishedTo(s.requesters, |s.requesters|)
    && (forall r, f | 0 <= r < |s.requesters| && 0 <= f < |s.lines| :: s.requesters[r].Finished? ==> s.serviced[f])
  }

  ghost predicate WorkedOn(s: State, f: nat)
    requires WellFormed(s)
  {
    exists r :: 0 <= r < |s.requesters| && WorksOn(s.requesters[r]) == Some(f)
  }

  /** A requester knows how much of its file has been pushed. */
  ghost predicate KnowsProgress(s: State, q: Requester)
    requires WellFormed(s) && (WorksOn(q).Some? ==> WorksOn(q).value < |s.lines|)
  {
    match q
    case Locking(f) => s.progress[f] == 0
    case Pushing(f, next) => s.progress[f] == next
    case WaitFull(f, next) => s.progress[f] == next
    case _ => true
  }

  /** A file's lines are pushed in order by the one requester that claimed it, all of them before it leaves the file. */
  ghost predicate ProgressInv(s: State)
    requires WellFormed(s)
  {
    && (forall f | 0 <= f < |s.lines| :: s.progress[f] <= s.lines[f])
    && (forall f | 0 <= f < |s.lines| :: !s.serviced[f] ==> s.progress[f] == 0)
    && (forall f | 0 <= f < |s.lines| :: s.serviced[f] ==> s.progress[f] == s.lines[f] || WorkedOn(s, f))
    && (forall r | 0 <= r < |s.requesters| :: KnowsProgress(s, s.requesters[r]))
  }

  ghost predicate FilesInv(s: State) {
    WellFormed(s) && WorkInv(s) && ClaimsInv(s) && FinishInv(s) && ProgressInv(s)
  }

  // ---------- Claiming ----------

  lemma {:induction false} ClaimsPrefix(claims: seq<Claim>, c: Claim, r: nat, n: nat)
    requires n <= |claims|
    ensures ClaimsBy(claims + [c], r, n) == ClaimsBy(claims, r, n)
  {
    if n > 0 {
      ClaimsPrefix(claims, c, r, n - 1);
    }
  }

  lemma {:induction false} ServicedUpdate(serviced: seq<bool>, n: nat, f: nat)
    requires n <= |serviced| && f < |serviced| && !serviced[f]
    ensures ServicedTo(serviced[f := true], n) == ServicedTo(serviced, n) + (if f < n then 1 else 0)
  {
    if n > 0 {
      ServicedUpdate(serviced, n - 1, f);
    }
  }

  lemma {:induction false} NoneServiced(serviced: seq<bool>, n: nat)
    requires n <= |serviced| && forall f | 0 <= f < n :: !serviced[f]
    ensures ServicedTo(serviced, n) == 0
  {
    if n > 0 {
      NoneServiced(serviced, n - 1);
    }
  }

  lemma {:induction false} FinishedUpdate(requesters: seq<Requester>, n: nat, r: nat, q: Requester)
    requires n <= |requesters| && r < |requesters| && !requesters[r].Finished?
    ensures FinishedTo(requesters[r := q], n) == FinishedTo(requesters, n) + (if r < n && q.Finished? then 1 else 0)
  {
    if n > 0 {
      FinishedUpdate(requesters, n - 1, r, q);
    }
  }

  lemma ClaimKeepsClaims(s: State, r: nat, f: nat)
    requires FilesInv(s) && s.currentPosition >= 0 && r < |s.requesters| && s.requesters[r] == Claiming
    requires FirstUnserviced(s.serviced, 0) == Some(f)
    ensures ClaimsInv(ClaimFile(s, r))
  {
    var t := ClaimFile(s, r);
    forall g | 0 <= g < |t.lines|
      ensures t.serviced[g] <==> Claimed(t.claims, g)
    {
      ClaimedNext(s.claims, Claim(r, f), g);
    }
    forall q | 0 <= q < |t.requesters|
      ensures t.serviceCounts[q] == ClaimsBy(t.claims, q, |t.claims|)
    {
      ClaimsPrefix(s.claims, Claim(r, f), q, |s.claims|);
    }
    assert !Claimed(s.claims, f);
    ServicedUpdate(s.serviced, |s.serviced|, f);
  }

  lemma ClaimedNext(claims: seq<Claim>, c: Claim, g: nat)
    ensures Claimed(claims + [c], g) <==> Claimed(claims, g) || c.file == g
  {
    if Claimed(claims, g) {
      var i :| 0 <= i < |claims| && claims[i].file == g;
      assert (claims + [c])[i].file == g;
    }
    assert (claims + [c])[|claims|] == c;
  }

  lemma ClaimKeepsRest(s: State, r: nat, f: nat)
    requires FilesInv(s) && s.currentPosition >= 0 && r < |s.requesters| && s.requesters[r] == Claiming
    requires FirstUnserviced(s.serviced, 0) == Some(f)
    ensures var t := ClaimFile(s, r); WellFormed(t) && WorkInv(t) && FinishInv(t) && ProgressInv(t)
  {
    var t := ClaimFile(s, r);
    FinishedUpdate(s.requesters, |s.requesters|, r, Locking(f));
    forall g | 0 <= g < |t.lines|
      ensures t.serviced[g] ==> t.progress[g] == t.lines[g] || WorkedOn(t, g)
    {
      if g == f {
        assert WorksOn(t.requesters[r]) == Some(f);
      } else if s.serviced[g] {
        StillWorkedOn(s, t, r, g);
      }
    }
  }

  /** A requester that moves on leaves the others at their files. */
  lemma StillWorkedOn(s: State, t: State, r: nat, f: nat)
    requires WellFormed(s) && WellFormed(t) && |t.requesters| == |s.requesters| && r < |s.requesters|
    requires forall q | 0 <= q < |s.requesters| && q != r :: t.requesters[q] == s.requesters[q]
    requires WorksOn(s.requesters[r]) != Some(f) || WorksOn(t.requesters[r]) == Some(f)
    ensures WorkedOn(s, f) ==> WorkedOn(t, f)
  {
    if WorkedOn(s, f) {
      var q :| 0 <= q < |s.requesters| && WorksOn(s.requesters[q]) == Some(f);
      assert WorksOn(t.requesters[q]) == Some(f);
    }
  }

  lemma FinishKeepsProgress(s: State, r: nat)
    requires WellFormed(s) && ProgressInv(s) && r < |s.requesters| && s.requesters[r] == Claiming
    requires FirstUnserviced(s.serviced, 0) == None
    ensures ProgressInv(ClaimFile(s, r))
  {
    var t := ClaimFile(s, r);
    forall g | 0 <= g < |t.lines|
      ensures WorkedOn(s, g) ==> WorkedOn(t, g)
    {
      StillWorkedOn(s, t, r, g);
    }
  }

  lemma FinishKeepsFiles(s: State, r: nat)
    requires FilesInv(s) && s.currentPosition >= 0 && r < |s.requesters| && s.requesters[r] == Claiming
    requires FirstUnserviced(s.serviced, 0) == None
    ensures FilesInv(ClaimFile(s, r))
  {
    FinishedUpdate(s.requesters, |s.requesters|, r, Finished);
    FinishKeepsProgress(s, r);
  }

  // ---------- Pushing ----------

  /** A move that keeps the requester at its file, and changes nothing that the files' invariant is about. */
  lemma SameFileKeepsFiles(s: State, t: State, r: nat)
    requires FilesInv(s) && WellFormed(t) && r < |s.requesters|
    requires t.lines == s.lines && t.serviced == s.serviced && t.serviceCounts == s.serviceCounts
    requires t.claims == s.claims && t.threadsFinished == s.threadsFinished && |t.requesters| == |s.requesters|
    requires t.requesters == s.requesters[r := t.requesters[r]]
    requires WorksOn(s.requesters[r]).Some? && WorksOn(t.requesters[r]) == WorksOn(s.requesters[r])
    requires var f := WorksOn(s.requesters[r]).value;
      t.progress == s.progress[f := t.progress[f]] && t.progress[f] <= t.lines[f]
    requires KnowsProgress(t, t.requesters[r])
    ensures FilesInv(t)
  {
    FinishedUpdate(s.requesters, |s.requesters|, r, t.requesters[r]);
    forall g | 0 <= g < |t.lines|
      ensures WorkedOn(s, g) ==> WorkedOn(t, g)
    {
      StillWorkedOn(s, t, r, g);
    }
    assert WorkedOn(t, WorksOn(t.requesters[r]).value);
  }

  /** After the last line the requester looks for another file. */
  lemma LeaveKeepsFiles(s: State, r: nat, f: nat, next: nat, pick: nat)
    requires FilesInv(s) && r < |s.requesters| && s.requesters[r] == Pushing(f, next) && next >= s.lines[f]
    ensures FilesInv(SetRequester(s, r, Claiming).(lock := None, roused := SignalEmpty(s.roused, s.resolvers, pick)))
  {
    var t := SetRequester(s, r, Claiming).(lock := None, roused := SignalEmpty(s.roused, s.resolvers, pick));
    FinishedUpdate(s.requesters, |s.requesters|, r, Claiming);
    assert KnowsProgress(s, s.requesters[r]);
    forall g | 0 <= g < |t.lines| && g != f
      ensures WorkedOn(s, g) ==> WorkedOn(t, g)
    {
      StillWorkedOn(s, t, r, g);
    }
  }

  lemma ClaimingKeepsFiles(s: State, r: nat)
    requires FilesInv(s) && s.currentPosition >= 0 && r < |s.requesters| && s.requesters[r] == Claiming
    ensures FilesInv(ClaimFile(s, r))
  {
    if FirstUnserviced(s.serviced, 0).Some? {
      ClaimKeepsClaims(s, r, FirstUnserviced(s.serviced, 0).value);
      ClaimKeepsRest(s, r, FirstUnserviced(s.serviced, 0).value);
    } else {
      FinishKeepsFiles(s, r);
    }
  }

  lemma PushingKeepsFiles(s: State, r: nat, f: nat, next: nat, pick: nat)
    requires FilesInv(s) && s.currentPosition >= 0 && r < |s.requesters| && s.requesters[r] == Pushing(f, next)
    ensures FilesInv(PushLine(s, r, f, next, pick))
  {
    assert KnowsProgress(s, s.requesters[r]);
    if next >= s.lines[f] {
      LeaveKeepsFiles(s, r, f, next, pick);
    } else {
      SameFileKeepsFiles(s, PushLine(s, r, f, next, pick), r);
    }
  }

  lemma RequesterKeepsFiles(s: State, r: nat, pick: nat)
    requires FilesInv(s) && s.currentPosition >= 0 && r < |s.requesters|
    ensures FilesInv(MoveRequester(s, r, pick))
  {
    assert KnowsProgress(s, s.requesters[r]);
    match s.requesters[r]
    case Claiming => ClaimingKeepsFiles(s, r);
    case Locking(_) => SameFileKeepsFiles(s, MoveRequester(s, r, pick), r);
    case Pushing(f, next) => PushingKeepsFiles(s, r, f, next, pick);
    case WaitFull(_, _) => SameFileKeepsFiles(s, MoveRequester(s, r, pick), r);
    case Finished =>
  }

  /** What a resolver leaves alone. */
  ghost predicate SameFiles(s: State, t: State) {
    && t.lines == s.lines && t.requesters == s.requesters && t.serviceCounts == s.serviceCounts
    && t.serviced == s.serviced && t.threadsFinished == s.threadsFinished
    && t.claims == s.claims && t.progress == s.progress
  }

  lemma SameFilesKeepFiles(s: State, t: State)
    requires FilesInv(s) && WellFormed(t) && SameFiles(s, t)
    ensures FilesInv(t)
  {
    forall f | 0 <= f < |t.lines|
      ensures WorkedOn(s, f) ==> WorkedOn(t, f)
    {
    }
  }

  lemma ResolverSparesFiles(s: State, k: nat, pick: nat)
    requires WellFormed(s) && s.currentPosition >= 0 && k < |s.resolvers|
    ensures SameFiles(s, MoveResolver(s, k, pick))
  {
  }

  lemma StepKeepsFiles(s: State, t: Thread, pick: nat)
    requires FilesInv(s) && s.currentPosition >= 0
    ensures FilesInv(Step(s, t, pick))
  {
    match t
    case Req(r) =>
      if r < |s.requesters| {
        RequesterKeepsFiles(s, r, pick);
      }
    case Res(k) =>
      if k < |s.resolvers| {
        ResolverSparesFiles(s, k, pick);
        SameFilesKeepFiles(s, Step(s, t, pick));
      }
  }

  lemma MoveKeepsFiles(s: State, e: Event)
    requires FilesInv(s)
    ensures FilesInv(Move(s, e))
  {
    if s.currentPosition >= 0 {
      match e
      case Go(t, pick) => StepKeepsFiles(s, t, pick);
      case Spurious(_) => SameFilesKeepFiles(s, Move(s, e));
    }
  }

  lemma {:induction false} NoneFinished(requesters: seq<Requester>, n: nat)
    requires n <= |requesters| && forall r | 0 <= r < n :: requesters[r] == Claiming
    ensures FinishedTo(requesters, n) == 0
  {
    if n > 0 {
      NoneFinished(requesters, n - 1);
    }
  }

  lemma InitialFiles(lines: seq<nat>, requesters: nat, resolvers: nat)
    requires |lines| > 0
    ensures FilesInv(Initial(lines, requesters, resolvers))
  {
    var s := Initial(lines, requesters, resolvers);
    NoneFinished(s.requesters, |s.requesters|);
    NoneServiced(s.serviced, |s.serviced|);
  }

  lemma RunKeepsFiles(s: State, schedule: seq<Event>, n: nat)
    requires FilesInv(s) && n <= |schedule|
    ensures FilesInv(Run(s, schedule, n))
  {
    forall e
      ensures MoveKeeps(FilesInv, e)
    {
      forall u | FilesInv(u)
        ensures FilesInv(Move(u, e))
      {
        MoveKeepsFiles(u, e);
      }
    }
    RunKeepsOn(FilesInv, s, schedule, 0, n);
  }

  // ---------- Exactly once ----------

  function ClaimCounts(claims: seq<Claim>, n: nat, threads: nat): (r: seq<int>)
    requires n <= |claims|
    ensures |r| == threads && forall t | 0 <= t < threads :: r[t] == ClaimsBy(claims, t, n)
  {
    seq(threads, t requires 0 <= t < threads => ClaimsBy(claims, t, n))
  }

  lemma {:induction false} ClaimsAddUp(claims: seq<Claim>, n: nat, threads: nat)
    requires n <= |claims| && forall i | 0 <= i < n :: claims[i].thread < threads
    ensures Sum(ClaimCounts(claims, n, threads)) == n
  {
    var counts := ClaimCounts(claims, n, threads);
    if n == 0 {
      SumOfZeros(counts, threads);
    } else {
      ClaimsAddUp(claims, n - 1, threads);
      var less := ClaimCounts(claims, n - 1, threads);
      var t := claims[n - 1].thread;
      assert counts == less[t := less[t] + 1];
      SumUpdate(less, threads, t, less[t] + 1);
    }
  }

  /** The requesters' counters add up to the number of serviced files. */
  lemma CountersAddUp(s: State)
    requires FilesInv(s)
    ensures Sum(s.serviceCounts) == ServicedTo(s.serviced, |s.serviced|)
  {
    ClaimsAddUp(s.claims, |s.claims|, |s.requesters|);
    assert s.serviceCounts == ClaimCounts(s.claims, |s.claims|, |s.requesters|);
  }

  lemma {:induction false} AllFinished(requesters: seq<Requester>, n: nat)
    requires n <= |requesters| && FinishedTo(requesters, n) == n
    ensures forall r | 0 <= r < n :: requesters[r].Finished?
  {
    if n > 0 {
      AllFinished(requesters, n - 1);
    }
  }

  /** When all requesters have finished, every file has been claimed and all its lines pushed. */
  lemma FinishedMeansServed(s: State)
    requires FilesInv(s) && |s.requesters| > 0 && s.threadsFinished == |s.requesters|
    ensures forall r | 0 <= r < |s.requesters| :: s.requesters[r].Finished?
    ensures forall f | 0 <= f < |s.lines| :: Claimed(s.claims, f) && s.progress[f] == s.lines[f]
  {
    AllFinished(s.requesters, |s.requesters|);
    assert s.requesters[0].Finished?;
  }

  /** The files' part of `s`, with all requesters finished. */
  ghost function AllServedAs(s: State): State -> bool {
    t => FilesInv(t) && |t.requesters| > 0 && t.threadsFinished == |t.requesters| && SameFiles(s, t)
  }

  /** And then nothing is pushed any more. */
  lemma NoMorePushes(s: State, schedule: seq<Event>, n: nat)
    requires FilesInv(s) && |s.requesters| > 0 && s.threadsFinished == |s.requesters| && n <= |schedule|
    ensures SameFiles(s, Run(s, schedule, n))
  {
    var P := AllServedAs(s);
    forall e
      ensures MoveKeeps(P, e)
    {
      forall u | P(u)
        ensures P(Move(u, e))
      {
        NoPushNow(u, e);
        MoveKeepsFiles(u, e);
      }
    }
    RunKeepsOn(P, s, schedule, 0, n);
    assert P(Run(s, schedule, n));
  }

  lemma NoPushNow(s: State, e: Event)
    requires FilesInv(s) && |s.requesters| > 0 && s.threadsFinished == |s.requesters|
    ensures SameFiles(s, Move(s, e))
  {
    FinishedMeansServed(s);
    if e.Go? && e.thread.Res? && e.thread.id < |s.resolvers| && s.currentPosition >= 0 {
      ResolverSparesFiles(s, e.thread.id, e.pick);
    }
  }

  lemma {:induction false} RunKeepsShape(s: State, schedule: seq<Event>, n: nat)
    requires WellFormed(s) && n <= |schedule|
    ensures var t := Run(s, schedule, n);
      t.lines == s.lines && |t.requesters| == |s.requesters| && |t.resolvers| == |s.resolvers|
  {
    if n > 0 {
      RunKeepsShape(s, schedule, n - 1);
      MoveKeepsShape(Run(s, schedule, n - 1), schedule[n - 1]);
    }
  }

  lemma MoveKeepsShape(s: State, e: Event)
    requires WellFormed(s)
    ensures var u := Move(s, e);
      u.lines == s.lines && |u.requesters| == |s.requesters| && |u.resolvers| == |s.resolvers|
  {
  }

  /** Exactly-once file service, for every schedule. */
  lemma ExactlyOnceService(lines: seq<nat>, requesters: nat, resolvers: nat, schedule: seq<Event>, n: nat)
    requires |lines| > 0 && requesters > 0 && n <= |schedule|
    ensures var s := Run(Initial(lines, requesters, resolvers), schedule, n);
      && (forall i, j | 0 <= i < j < |s.claims| :: s.claims[i].file != s.claims[j].file)
      && Sum(s.serviceCounts) == ServicedTo(s.serviced, |s.serviced|)
      && s.lines == lines
      && (s.threadsFinished == requesters ==>
            forall f | 0 <= f < |s.lines| :: Claimed(s.claims, f) && s.progress[f] == s.lines[f])
  {
    var s0 := Initial(lines, requesters, resolvers);
    InitialFiles(lines, requesters, resolvers);
    RunKeepsFiles(s0, schedule, n);
    RunKeepsShape(s0, schedule, n);
    var s := Run(s0, schedule, n);
    CountersAddUp(s);
    if s.threadsFinished == requesters {
      FinishedMeansServed(s);
    }
  }
}
