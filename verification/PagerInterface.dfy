/** What the two calls of the pager's interface do, and when they are accepted. */
module PagerInterface {
  import opened Machine
  import opened Simulation

  /** The call names a page of the active job `k` in that slot. */
  ghost predicate Names(s: State, slot: int, page: int, k: nat) {
    Holds(s, slot, k) && k < |s.jobs| && s.jobs[k].active && 0 <= page < MAXPROCPAGES
  }

  /** All is as before, but for the timer of page `page` of job `k`, which is now `v`. */
  ghost predicate OnlyTimer(s: State, t: State, k: nat, page: int, v: int) {
    && t.slots == s.slots && t.queueend == s.queueend && |t.jobs| == |s.jobs|
    && k < |s.jobs| && 0 <= page < |s.jobs[k].pages|
    && (forall m | 0 <= m < |s.jobs| && m != k :: t.jobs[m] == s.jobs[m])
    && t.jobs[k].(pages := s.jobs[k].pages) == s.jobs[k]
    && |t.jobs[k].pages| == |s.jobs[k].pages| && t.jobs[k].pages[page] == v
    && forall p | 0 <= p < |s.jobs[k].pages| && p != page :: t.jobs[k].pages[p] == s.jobs[k].pages[p]
  }

  /** `pageout` is accepted for a page that is in or on its way out; only a page that is in starts on its way. */
  lemma PageOutEffect(s: State, slot: int, page: int, k: nat)
    requires WellFormed(s) && Names(s, slot, page, k)
    ensures var (t, ok) := PageOut(s, slot, page); var v := s.jobs[k].pages[page];
      && (ok <==> v <= 0)
      && (if v == 0 then OnlyTimer(s, t, k, page, -1) && t.avail == s.avail else t == s)
  {
  }

  /**
   `pagein` is accepted for a page that is in or on its way in, and for a page that is out if there is a frame;
   only such a page starts on its way, and takes the frame.
   */
  lemma PageInEffect(s: State, slot: int, page: int, k: nat)
    requires WellFormed(s) && Names(s, slot, page, k)
    ensures var (t, ok) := PageIn(s, slot, page); var v := s.jobs[k].pages[page];
      && (ok <==> v >= 0 || (v < -PAGEWAIT && s.avail != 0))
      && if v < -PAGEWAIT && s.avail != 0 then OnlyTimer(s, t, k, page, PAGEWAIT) && t.avail == s.avail - 1
         else t == s
  {
  }

  /** A call that names no page of an active job is refused and does nothing. */
  lemma NoPageNoEffect(s: State, slot: int, page: int)
    requires WellFormed(s) && forall k: nat :: !Names(s, slot, page, k)
    ensures PageOut(s, slot, page) == (s, false) && PageIn(s, slot, page) == (s, false)
  {
    if 0 <= slot < |s.slots| && s.slots[slot].Some? {
      assert !Names(s, slot, page, s.slots[slot].value);
    }
  }
}
