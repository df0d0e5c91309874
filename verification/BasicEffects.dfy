/** What an invocation of pager-basic.c does, page by page, in any state of the machine. */
module BasicEffects {
  import opened Machine
  import opened Simulation
  import opened BasicPaging
  import opened ClockCalls
  import opened PagerInterface
  import opened Pagers

  /** The page the job is on cannot come in, or not yet. */
  predicate Refused(j: Job, avail: int) {
    !Served(j) && (Asks(j) ==> avail == 0)
  }

  /** Page `p` is the first one from `from` on, other than the job's own, that is in or on its way out; and it is in. */
  ghost predicate FirstToGo(j: Job, from: nat, p: nat) {
    && from <= p < |j.pages| && !NeedsPage(j, p) && j.pages[p] == 0
    && forall q | from <= q < p && !NeedsPage(j, q) :: j.pages[q] > 0
  }

  /** The first page that can go starts on its way out, if there is one. */
  ghost predicate OneGoes(s: State, t: State, k: nat, from: nat)
    requires WellFormed(s) && k < |s.jobs|
  {
    && t.avail == s.avail
    && (forall p: nat | FirstToGo(s.jobs[k], from, p) :: OnlyTimer(s, t, k, p, -1))
    && ((forall p: nat :: !FirstToGo(s.jobs[k], from, p)) ==> t == s)
  }

  lemma SameToGo(j: Job, from: nat, p: nat)
    requires from < |j.pages| && (NeedsPage(j, from) || j.pages[from] > 0)
    ensures FirstToGo(j, from + 1, p) <==> FirstToGo(j, from, p)
  {
  }

  lemma SkippedPage(s: State, t: State, k: nat, from: nat)
    requires WellFormed(s) && k < |s.jobs| && from < MAXPROCPAGES && OneGoes(s, t, k, from + 1)
    requires NeedsPage(s.jobs[k], from) || s.jobs[k].pages[from] > 0
    ensures OneGoes(s, t, k, from)
  {
    var next := from + 1;
    forall p: nat
      ensures FirstToGo(s.jobs[k], next, p) <==> FirstToGo(s.jobs[k], from, p)
    {
      SameToGo(s.jobs[k], from, p);
    }
    if p: nat :| FirstToGo(s.jobs[k], next, p) {
      assert FirstToGo(s.jobs[k], from, p);
    }
  }

  lemma TakenPage(s: State, i: nat, k: nat, from: nat)
    requires WellFormed(s) && Holds(s, i, k) && s.jobs[k].active && from < MAXPROCPAGES
    requires !NeedsPage(s.jobs[k], from) && s.jobs[k].pages[from] <= 0
    ensures OneGoes(s, PageOut(s, i, from).0, k, from)
  {
    PageOutEffect(s, i, from, k);
    if s.jobs[k].pages[from] == 0 {
      assert FirstToGo(s.jobs[k], from, from);
    }
    assert forall p: nat :: FirstToGo(s.jobs[k], from, p) ==> p == from && s.jobs[k].pages[from] == 0;
  }

  lemma {:induction false} OutCallsEffect(s: State, i: nat, k: nat, page: nat, from: nat)
    requires WellFormed(s) && Holds(s, i, k) && s.jobs[k].active
    requires page == CurrentPage(s.jobs[k]) && from <= MAXPROCPAGES
    ensures OneGoes(s, DoAll(s, OutCalls(s, i, page, from)), k, from)
    decreases MAXPROCPAGES - from
  {
    if from < MAXPROCPAGES {
      var j := s.jobs[k];
      NeededIs(j, page, from);
      PageOutEffect(s, i, from, k);
      if from == page {
        OutCallsEffect(s, i, k, page, from + 1);
        SkippedPage(s, DoAll(s, OutCalls(s, i, page, from)), k, from);
      } else if j.pages[from] <= 0 {
        OutAccepted(s, i, page, from);
        TakenPage(s, i, k, from);
      } else {
        OutRefused(s, i, page, from);
        OutCallsEffect(s, i, k, page, from + 1);
        SkippedPage(s, DoAll(s, OutCalls(s, i, page, from)), k, from);
      }
    }
  }

  lemma NeededIs(j: Job, page: nat, p: nat)
    requires ValidJob(j) && page == CurrentPage(j)
    ensures NeedsPage(j, p) <==> p == page
  {
    NeedIsCurrent(j);
    if NeedsPage(j, p) {
      OnePage(j, p);
    }
  }

  /** No slot below `i` is occupied, and `i` holds the active job `k`. */
  ghost predicate IsHead(s: State, i: nat, k: nat)
    requires WellFormed(s)
  {
    && Holds(s, i, k) && k < |s.jobs| && s.jobs[k].active
    && forall m, n | Holds(s, m, n) && m < i :: !s.jobs[n].active
  }

  lemma HeadIsFirst(s: State, i: nat, k: nat)
    requires WellFormed(s) && IsHead(s, i, k)
    ensures FirstOccupied(s, 0) == Some(i)
  {
    forall m | 0 <= m < i
      ensures !Occupied(s, m)
    {
      assert s.slots[m].Some? ==> Holds(s, m, s.slots[m].value);
    }
    FirstIs(s, i);
  }

  /** The invocation, for the job in the first occupied slot. */
  lemma BasicPages(s: State, i: nat, k: nat)
    requires WellFormed(s) && IsHead(s, i, k)
    ensures var t := DoAll(s, BasicCalls(s)); var j := s.jobs[k];
      if Refused(j, s.avail) then OneGoes(s, t, k, 0)
      else if Served(j) then t == s
      else exists p :: NeedsPage(j, p) && OnlyTimer(s, t, k, p, PAGEWAIT) && t.avail == s.avail - 1
  {
    var j := s.jobs[k];
    var page := CurrentPage(j);
    HeadIsFirst(s, i, k);
    NeedIsCurrent(j);
    PageInEffect(s, i, page, k);
    if j.pages[page] != 0 {
      DoOne(s, In(i, page));
      if Refused(j, s.avail) {
        RefusedCall(s, In(i, page), OutCalls(s, i, page, 0));
        OutCallsEffect(s, i, k, page, 0);
      }
    }
  }

  /** With no active job in a slot it does nothing. */
  lemma NoHeadNoPages(s: State)
    requires WellFormed(s) && forall i, k | Holds(s, i, k) :: !s.jobs[k].active
    ensures DoAll(s, BasicCalls(s)) == s
  {
    forall i | 0 <= i < |s.slots|
      ensures !Occupied(s, i)
    {
      assert s.slots[i].Some? ==> Holds(s, i, s.slots[i].value);
    }
  }
}
