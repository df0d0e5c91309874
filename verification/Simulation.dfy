/**
 The simulator as a state machine on values: jobs in a queue, processor slots that
 refer to jobs, and a pool of physical frames. One operation is one slot's turn in
 `allstep` or `allage`, or one call of the pager's interface.
 */
module Simulation {
  import opened Machine
  import opened Programs
  import opened ControlFlow

  datatype Job = Job(program: Program, control: Control, pages: seq<int>, active: bool, compute: nat, block: nat)

  /** `slots[i]` is the queue position of the job in processor slot `i`. */
  datatype State = State(jobs: seq<Job>, slots: seq<Option<nat>>, queueend: nat, avail: int)

  // ---------- Page timers ----------

  const OUT := -PAGEWAIT - 1

  predicate ValidPage(v: int) {
    OUT <= v <= PAGEWAIT
  }

  /** A page owns a frame from the start of its page-in to the end of its page-out. */
  predicate Held(v: int) {
    v >= -PAGEWAIT
  }

  /** One tick of a page timer. */
  function AgePage(v: int): int {
    if v == 0 || v < -PAGEWAIT then v else v - 1
  }

  /** How many of the first `n` pages own a frame. */
  function HeldTo(pages: seq<int>, n: nat): (r: nat)
    requires n <= |pages|
    ensures r <= n
  {
    if n == 0 then 0 else HeldTo(pages, n - 1) + (if Held(pages[n - 1]) then 1 else 0)
  }

  /** How many of the first `n` pages give up their frame when they age. */
  function ExpiringTo(pages: seq<int>, n: nat): (r: nat)
    requires n <= |pages|
    ensures r <= n
  {
    if n == 0 then 0 else ExpiringTo(pages, n - 1) + (if pages[n - 1] == -PAGEWAIT then 1 else 0)
  }

  function AgePages(pages: seq<int>): (r: seq<int>)
    ensures |r| == |pages|
  {
    seq(|pages|, i requires 0 <= i < |pages| => AgePage(pages[i]))
  }

  function AllOut(): (r: seq<int>)
    ensures |r| == MAXPROCPAGES
  {
    seq(MAXPROCPAGES, i => OUT)
  }

  // ---------- Jobs ----------

  ghost predicate ValidJob(j: Job) {
    && ValidProgram(j.program)
    && ValidControl(j.program, j.control)
    && |j.pages| == MAXPROCPAGES
    && forall i | 0 <= i < MAXPROCPAGES :: ValidPage(j.pages[i])
  }

  /** The page the job is on. */
  function CurrentPage(j: Job): (r: nat)
    requires ValidJob(j)
    ensures r < MAXPROCPAGES
  {
    j.control.pc / PAGESIZE
  }

  /** The timer of that page; the job can run if it is 0. */
  function Timer(j: Job): (r: int)
    requires ValidJob(j)
    ensures ValidPage(r)
  {
    j.pages[CurrentPage(j)]
  }

  /** `process_step`: the job afterwards, and whether it goes on. */
  function StepJob(j: Job): (r: (Job, bool))
    requires ValidJob(j)
    ensures ValidJob(r.0)
  {
    if !j.active then (j, false)
    else if Timer(j) != 0 then (j.(block := j.block + 1), true)
    else if AtExit(j.program, j.control.pc) then (j.(compute := j.compute + 1), false)
    else (j.(compute := j.compute + 1, control := StepControl(j.program, j.control)), true)
  }

  /** `process_unload`: all pages out, and no longer active. */
  function UnloadJob(j: Job): (r: Job)
    requires ValidJob(j)
    ensures ValidJob(r)
  {
    j.(pages := AllOut(), active := false)
  }

  function AgeJob(j: Job): (r: Job)
    requires ValidJob(j)
    ensures ValidJob(r)
  {
    j.(pages := AgePages(j.pages))
  }

  // ---------- The whole machine ----------

  ghost predicate WellFormed(s: State) {
    && (forall k | 0 <= k < |s.jobs| :: ValidJob(s.jobs[k]))
    && (forall i | 0 <= i < |s.slots| && s.slots[i].Some? :: s.slots[i].value < |s.jobs|)
    && s.queueend <= |s.jobs|
  }

  /** Slot `i` holds job `k`. */
  ghost predicate Holds(s: State, i: int, k: int) {
    0 <= i < |s.slots| && s.slots[i] == Some(k)
  }

  predicate Occupied(s: State, i: int)
    requires WellFormed(s) && 0 <= i < |s.slots|
  {
    s.slots[i].Some? && s.jobs[s.slots[i].value].active
  }

  /** The next waiting job enters the slot; the slot stays empty when there is none. */
  function Refill(s: State, i: nat): (r: State)
    requires WellFormed(s) && i < |s.slots|
    ensures WellFormed(r) && |r.slots| == |s.slots| && r.jobs == s.jobs
  {
    if s.queueend < |s.jobs|
    then s.(slots := s.slots[i := Some(s.queueend)], queueend := s.queueend + 1)
    else s.(slots := s.slots[i := None])
  }

  function PutJob(s: State, k: nat, j: Job): (r: State)
    requires WellFormed(s) && k < |s.jobs| && ValidJob(j)
    ensures WellFormed(r) && |r.slots| == |s.slots| && |r.jobs| == |s.jobs|
  {
    s.(jobs := s.jobs[k := j])
  }

  /** One slot's turn in `allstep`. */
  function StepSlot(s: State, i: nat): (r: State)
    requires WellFormed(s) && i < |s.slots|
    ensures WellFormed(r) && |r.slots| == |s.slots| && |r.jobs| == |s.jobs|
  {
    match s.slots[i]
    case None => Refill(s, i)
    case Some(k) =>
      var (j, goes) := StepJob(s.jobs[k]);
      if goes then PutJob(s, k, j)
      else if j.active then
        Refill(PutJob(s, k, UnloadJob(j)).(avail := s.avail + HeldTo(j.pages, |j.pages|)), i)
      else Refill(s, i)
  }

  /** One slot's turn in `allage`. */
  function AgeSlot(s: State, i: nat): (r: State)
    requires WellFormed(s) && i < |s.slots|
    ensures WellFormed(r) && |r.slots| == |s.slots| && |r.jobs| == |s.jobs|
  {
    if Occupied(s, i) then
      var k := s.slots[i].value;
      PutJob(s, k, AgeJob(s.jobs[k])).(avail := s.avail + ExpiringTo(s.jobs[k].pages, |s.jobs[k].pages|))
    else s
  }

  /** The pager addresses an active job and one of its pages. */
  predicate Addressed(s: State, slot: int, page: int)
    requires WellFormed(s)
  {
    0 <= slot < |s.slots| && Occupied(s, slot) && 0 <= page < MAXPROCPAGES
  }

  function PageOf(s: State, slot: int, page: int): int
    requires WellFormed(s) && Addressed(s, slot, page)
  {
    s.jobs[s.slots[slot].value].pages[page]
  }

  function SetPage(s: State, slot: int, page: int, v: int): (r: State)
    requires WellFormed(s) && Addressed(s, slot, page) && ValidPage(v)
    ensures WellFormed(r) && |r.slots| == |s.slots| && |r.jobs| == |s.jobs|
  {
    var k := s.slots[slot].value;
    PutJob(s, k, s.jobs[k].(pages := s.jobs[k].pages[page := v]))
  }

  /** `pageout`: a resident page starts on its way out. */
  function PageOut(s: State, slot: int, page: int): (r: (State, bool))
    requires WellFormed(s)
    ensures WellFormed(r.0) && |r.0.slots| == |s.slots| && |r.0.jobs| == |s.jobs|
  {
    if !Addressed(s, slot, page) then (s, false)
    else if PageOf(s, slot, page) < 0 then (s, true)
    else if PageOf(s, slot, page) > 0 then (s, false)
    else (SetPage(s, slot, page, -1), true)
  }

  /** `pagein`: a page that is out starts on its way in, if there is a frame. */
  function PageIn(s: State, slot: int, page: int): (r: (State, bool))
    requires WellFormed(s)
    ensures WellFormed(r.0) && |r.0.slots| == |s.slots| && |r.0.jobs| == |s.jobs|
  {
    if !Addressed(s, slot, page) then (s, false)
    else if PageOf(s, slot, page) >= 0 then (s, true)
    else if s.avail == 0 then (s, false)
    else if PageOf(s, slot, page) >= -PAGEWAIT then (s, false)
    else (SetPage(s, slot, page, PAGEWAIT).(avail := s.avail - 1), true)
  }

  // ---------- Runs ----------

  datatype Op = Step(slot: nat) | Age(slot: nat) | In(proc: int, page: int) | Out(proc: int, page: int)

  /** What a pager may do. */
  predicate IsCall(o: Op) {
    o.In? || o.Out?
  }

  function Do(s: State, o: Op): (r: State)
    requires WellFormed(s)
    ensures WellFormed(r) && |r.slots| == |s.slots| && |r.jobs| == |s.jobs|
  {
    match o
    case Step(i) => if i < |s.slots| then StepSlot(s, i) else s
    case Age(i) => if i < |s.slots| then AgeSlot(s, i) else s
    case In(i, p) => PageIn(s, i, p).0
    case Out(i, p) => PageOut(s, i, p).0
  }

  /** The first `n` of a list of operations. */
  function DoTo(s: State, ops: seq<Op>, n: nat): (r: State)
    requires WellFormed(s) && n <= |ops|
    ensures WellFormed(r) && |r.slots| == |s.slots| && |r.jobs| == |s.jobs|
  {
    if n == 0 then s else Do(DoTo(s, ops, n - 1), ops[n - 1])
  }

  function DoAll(s: State, ops: seq<Op>): (r: State)
    requires WellFormed(s)
    ensures WellFormed(r) && |r.slots| == |s.slots| && |r.jobs| == |s.jobs|
  {
    DoTo(s, ops, |ops|)
  }

  lemma DoOne(s: State, o: Op)
    requires WellFormed(s)
    ensures DoAll(s, [o]) == Do(s, o)
  {
    assert DoTo(s, [o], 0) == s;
  }

  function StepOps(n: nat): (r: seq<Op>)
    ensures |r| == n
  {
    seq(n, i requires 0 <= i < n => Step(i))
  }

  function AgeOps(n: nat): (r: seq<Op>)
    ensures |r| == n
  {
    seq(n, i requires 0 <= i < n => Age(i))
  }

  /** `allstep`: every slot in order. */
  function AllStep(s: State): (r: State)
    requires WellFormed(s)
    ensures WellFormed(r) && |r.slots| == |s.slots| && |r.jobs| == |s.jobs|
  {
    DoAll(s, StepOps(|s.slots|))
  }

  /** `allage`: every slot in order. */
  function AllAge(s: State): (r: State)
    requires WellFormed(s)
    ensures WellFormed(r) && |r.slots| == |s.slots| && |r.jobs| == |s.jobs|
  {
    DoAll(s, AgeOps(|s.slots|))
  }

  /** The machine's own part of a tick of the main loop; the pager comes next. */
  function Tick(s: State): (r: State)
    requires WellFormed(s)
    ensures WellFormed(r) && |r.slots| == |s.slots| && |r.jobs| == |s.jobs|
  {
    AllAge(AllStep(s))
  }

  /** A whole tick, in which the pager makes the given calls. */
  function TickWith(s: State, calls: seq<Op>): (r: State)
    requires WellFormed(s)
    ensures WellFormed(r) && |r.slots| == |s.slots| && |r.jobs| == |s.jobs|
  {
    DoAll(Tick(s), calls)
  }

  /** `n` ticks of the main loop, the pager making the calls `calls[t]` in tick `t`. */
  function Run(s: State, calls: seq<seq<Op>>, n: nat): (r: State)
    requires WellFormed(s) && n <= |calls|
    ensures WellFormed(r) && |r.slots| == |s.slots| && |r.jobs| == |s.jobs|
  {
    if n == 0 then s else TickWith(Run(s, calls, n - 1), calls[n - 1])
  }

  /** The states at the start of the first `n` ticks, and after them. */
  function States(s: State, calls: seq<seq<Op>>, n: nat): (r: seq<State>)
    requires WellFormed(s) && n <= |calls|
    ensures |r| == n + 1 && forall t | 0 <= t <= n :: r[t] == Run(s, calls, t)
  {
    seq(n + 1, t requires 0 <= t <= n => Run(s, calls, t))
  }

  /** A pager only calls `pagein` and `pageout`. */
  ghost predicate PagerCalls(calls: seq<seq<Op>>) {
    forall t, c | 0 <= t < |calls| && 0 <= c < |calls[t]| :: IsCall(calls[t][c])
  }

  /** `alldone`: no slot is occupied. */
  predicate AllDone(s: State)
    requires WellFormed(s)
  {
    forall i | 0 <= i < |s.slots| :: !Occupied(s, i)
  }

  // ---------- Properties that every operation keeps ----------

  /** Operation `o` keeps `P`. */
  ghost predicate Keeps(P: State -> bool, o: Op) {
    forall s | P(s) :: WellFormed(s) && P(Do(s, o))
  }

  lemma {:induction false} DoToKeeps(P: State -> bool, s: State, ops: seq<Op>, n: nat)
    requires WellFormed(s) && P(s) && n <= |ops|
    requires forall i | 0 <= i < n :: Keeps(P, ops[i])
    ensures P(DoTo(s, ops, n))
  {
    if n > 0 {
      DoToKeeps(P, s, ops, n - 1);
    }
  }

  /** The machine's turns keep `P`. */
  ghost predicate TurnsKeep(P: State -> bool) {
    forall i: nat :: Keeps(P, Step(i)) && Keeps(P, Age(i))
  }

  lemma TickKeeps(P: State -> bool, s: State, calls: seq<Op>)
    requires WellFormed(s) && P(s) && TurnsKeep(P)
    requires forall c | 0 <= c < |calls| :: Keeps(P, calls[c])
    ensures P(AllStep(s)) && P(Tick(s)) && P(TickWith(s, calls))
  {
    DoToKeeps(P, s, StepOps(|s.slots|), |s.slots|);
    DoToKeeps(P, AllStep(s), AgeOps(|s.slots|), |s.slots|);
    DoToKeeps(P, Tick(s), calls, |calls|);
  }

  lemma {:induction false} EveryStateKeeps(P: State -> bool, states: seq<State>, n: nat)
    requires n < |states| && P(states[0]) && forall t | 0 <= t < n && P(states[t]) :: P(states[t + 1])
    ensures P(states[n])
  {
    if n > 0 {
      EveryStateKeeps(P, states, n - 1);
      assert P(states[(n - 1) + 1]);
    }
  }

  /** `P` passes from state number `t` to the next. */
  ghost predicate StateMoves(P: (nat, State) -> bool, states: seq<State>, t: nat)
    requires t + 1 < |states|
  {
    P(t, states[t]) ==> P(t + 1, states[t + 1])
  }

  lemma {:induction false} EveryStateMoves(P: (nat, State) -> bool, states: seq<State>, n: nat)
    requires n < |states| && P(0, states[0]) && forall t | 0 <= t < n :: StateMoves(P, states, t)
    ensures P(n, states[n])
  {
    if n > 0 {
      EveryStateMoves(P, states, n - 1);
      assert StateMoves(P, states, n - 1);
    }
  }

  lemma RunKeeps(P: State -> bool, s: State, calls: seq<seq<Op>>, n: nat)
    requires WellFormed(s) && P(s) && n <= |calls| && TurnsKeep(P)
    requires forall t, c | 0 <= t < n && 0 <= c < |calls[t]| :: Keeps(P, calls[t][c])
    ensures P(Run(s, calls, n))
  {
    var states := States(s, calls, n);
    assert states[0] == s;
    forall t | 0 <= t < n && P(states[t])
      ensures P(states[t + 1])
    {
      TickKeeps(P, states[t], calls[t]);
    }
    EveryStateKeeps(P, states, n);
  }

  /** Operation number `i`, `o`, leads from `P` of `i` operations to `P` of `i + 1`. */
  ghost predicate OpMoves(P: (nat, State) -> bool, i: nat, o: Op) {
    forall s | P(i, s) :: WellFormed(s) && P(i + 1, Do(s, o))
  }

  lemma LastMoves(P: (nat, State) -> bool, s: State, ops: seq<Op>, n: nat)
    requires WellFormed(s) && 0 < n <= |ops| && P(n - 1, DoTo(s, ops, n - 1)) && OpMoves(P, n - 1, ops[n - 1])
    ensures P(n, DoTo(s, ops, n))
  {
  }

  lemma {:induction false} DoToMoves(P: (nat, State) -> bool, s: State, ops: seq<Op>, n: nat)
    requires WellFormed(s) && P(0, s) && n <= |ops|
    requires forall i | 0 <= i < n :: OpMoves(P, i, ops[i])
    ensures P(n, DoTo(s, ops, n))
  {
    if n > 0 {
      DoToMoves(P, s, ops, n - 1);
      LastMoves(P, s, ops, n);
    }
  }

  // ---------- Loading ----------

  /** A job as `process_load` leaves it. */
  ghost predicate FreshJob(j: Job) {
    ValidJob(j) && j.control.pc == 0 && j.pages == AllOut() && j.active && j.compute == 0 && j.block == 0
  }

  /** `allinit` on a generated queue, with `procs` processor slots. */
  function Load(jobs: seq<Job>, procs: nat): (r: State)
    ensures |r.slots| == procs && r.jobs == jobs
    ensures (forall k | 0 <= k < |jobs| :: ValidJob(jobs[k])) ==> WellFormed(r)
  {
    State(jobs, seq(procs, i => if i < |jobs| then Some(i) else None),
          if procs < |jobs| then procs else |jobs|, PHYSICALPAGES)
  }
}
