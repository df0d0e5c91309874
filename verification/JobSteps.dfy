/** What one tick does to a job, and where a control step leads. */
module JobSteps {
  import opened Machine
  import opened Programs
  import opened BranchEngine
  import opened ControlFlow
  import opened Simulation
  import opened ClockCalls

  /** Nothing but the counters of ticks may differ. */
  ghost predicate SameButCounters(j: Job, j': Job) {
    j' == j.(compute := j'.compute, block := j'.block)
  }

  /**
   An inactive job does nothing. An active one is blocked for the tick unless the page of its statement is in; then
   it computes, and moves on unless it is at an exit, where it does not go on.
   */
  lemma StepEffect(j: Job, p: int)
    requires ValidJob(j) && NeedsPage(j, p)
    ensures 0 <= p < MAXPROCPAGES
    ensures var (next, goes) := StepJob(j);
      && (goes <==> j.active && !(j.pages[p] == 0 && j.control.pc in j.program.exits))
      && next.compute == j.compute + (if j.active && j.pages[p] == 0 then 1 else 0)
      && next.block == j.block + (if j.active && j.pages[p] != 0 then 1 else 0)
      && if goes && j.pages[p] == 0
         then SameButCounters(j.(control := StepControl(j.program, j.control)), next)
         else SameButCounters(j, next)
  {
    OnePage(j, p);
  }

  /** Statement `to`, or the first one if there is no such statement. */
  ghost predicate LandsOn(p: Program, to: int, pc: int) {
    && (0 <= to < p.size ==> pc == to)
    && (to < 0 || to >= p.size ==> pc == 0)
  }

  /** A branch leads to its target if it is taken, or else to the next statement; only its own context moves on. */
  lemma BranchStep(p: Program, c: Control, i: nat)
    requires ValidProgram(p) && ValidControl(p, c) && i < |p.branches| && p.branches[i].wherefrom == c.pc
    ensures var next := StepControl(p, c);
      && LandsOn(p, if Decide(c.ctxs[i]).0 then p.branches[i].whereto else c.pc + 1, next.pc)
      && |next.ctxs| == |c.ctxs| && next.ctxs[i] == Decide(c.ctxs[i]).1
      && forall m | 0 <= m < |c.ctxs| && m != i :: next.ctxs[m] == c.ctxs[m]
  {
    BranchIndex(p, c.pc, i);
  }

  /** From any other statement the next one follows, and after the last one the first. */
  lemma PlainStep(p: Program, c: Control)
    requires ValidProgram(p) && ValidControl(p, c) && |p.branches| > 0
    requires forall i | 0 <= i < |p.branches| :: p.branches[i].wherefrom != c.pc
    ensures var next := StepControl(p, c);
      next.ctxs == c.ctxs && next.pc == if c.pc < p.size then c.pc + 1 else 0
  {
  }

  /** A program without branches: statement 0 is a branch to itself, and its context decides. */
  lemma BranchlessStep(p: Program, c: Control)
    requires ValidProgram(p) && ValidControl(p, c) && |p.branches| == 0
    ensures var next := StepControl(p, c);
      if c.pc == 0 then
        && LandsOn(p, if Decide(c.ctxs[0]).0 then 0 else 1, next.pc)
        && next.ctxs == c.ctxs[0 := Decide(c.ctxs[0]).1]
      else next.ctxs == c.ctxs && next.pc == if c.pc < p.size then c.pc + 1 else 0
  {
  }
}
