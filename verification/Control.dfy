/**
 What a job executes, with paging left out: the program counter and the branch
 contexts, moved by one control step at a time.
 */
module ControlFlow {
  import opened Machine
  import opened Programs
  import opened BranchEngine
  import opened Sums

  datatype Control = Control(pc: int, ctxs: seq<Ctx>)

  ghost predicate ValidControl(p: Program, c: Control) {
    && 0 <= c.pc <= p.size
    && |c.ctxs| == MAXBRANCHES
    && forall i | 0 <= i < MAXBRANCHES :: ValidCtx(c.ctxs[i])
  }

  /** Back to the first statement when the branch leaves the program. */
  function BranchTarget(p: Program, b: Branch, pc: int, take: bool): int {
    var next := if take then b.whereto else pc + 1;
    if next < 0 || next >= p.size then 0 else next
  }

  /** One control step from a statement that is not an exit. */
  function StepControl(p: Program, c: Control): (r: Control)
    requires ValidProgram(p) && ValidControl(p, c)
    ensures ValidControl(p, r)
  {
    match BranchAt(p, c.pc)
    case Some(i) =>
      var (take, ctx) := Decide(c.ctxs[i]);
      Control(BranchTarget(p, BranchCell(p, i), c.pc, take), c.ctxs[i := ctx])
    case None =>
      c.(pc := if c.pc + 1 > p.size then 0 else c.pc + 1)
  }

  /** One control step, from `path[i]` to `path[i + 1]`. */
  ghost predicate StepAt(p: Program, path: seq<Control>, i: nat)
    requires ValidProgram(p) && i + 1 < |path| && ValidControl(p, path[i])
  {
    !AtExit(p, path[i].pc) && path[i + 1] == StepControl(p, path[i])
  }

  /** The states of a pure run, none but the last on an exit. */
  ghost predicate IsRun(p: Program, path: seq<Control>)
    requires ValidProgram(p)
  {
    && |path| > 0
    && (forall i | 0 <= i < |path| :: ValidControl(p, path[i]))
    && (forall i: nat | i + 1 < |path| :: StepAt(p, path, i))
  }

  /** `k` control steps lead from `a` to `b`, none of them taken at an exit. */
  ghost predicate Reach(p: Program, a: Control, k: nat, b: Control)
    requires ValidProgram(p)
  {
    exists path :: IsRun(p, path) && |path| == k + 1 && path[0] == a && path[k] == b
  }

  /** The run from `a` stands on an exit for the first time after `k` steps. */
  ghost predicate HaltsIn(p: Program, a: Control, k: nat)
    requires ValidProgram(p)
  {
    exists b :: Reach(p, a, k, b) && AtExit(p, b.pc)
  }

  lemma ReachNothing(p: Program, a: Control)
    requires ValidProgram(p) && ValidControl(p, a)
    ensures Reach(p, a, 0, a)
  {
    assert IsRun(p, [a]);
  }

  lemma SameStep(p: Program, path: seq<Control>, i: nat, other: seq<Control>, j: nat)
    requires ValidProgram(p) && i + 1 < |path| && j + 1 < |other| && ValidControl(p, other[j])
    requires path[i] == other[j] && path[i + 1] == other[j + 1] && StepAt(p, other, j)
    ensures ValidControl(p, path[i]) && StepAt(p, path, i)
  {
  }

  lemma JoinRuns(p: Program, first: seq<Control>, second: seq<Control>)
    requires ValidProgram(p) && IsRun(p, first) && IsRun(p, second) && first[|first| - 1] == second[0]
    ensures IsRun(p, first + second[1..])
  {
    var path := first + second[1..];
    var k := |first| - 1;
    forall i: nat | i + 1 < |path|
      ensures ValidControl(p, path[i]) && StepAt(p, path, i)
    {
      if i < k {
        SameStep(p, path, i, first, i);
      } else {
        SameStep(p, path, i, second, i - k);
      }
    }
    assert path[|path| - 1] == second[|second| - 1];
  }

  lemma ReachTrans(p: Program, a: Control, k: nat, b: Control, m: nat, c: Control)
    requires ValidProgram(p) && Reach(p, a, k, b) && Reach(p, b, m, c)
    ensures Reach(p, a, k + m, c)
  {
    var first :| IsRun(p, first) && |first| == k + 1 && first[0] == a && first[k] == b;
    var second :| IsRun(p, second) && |second| == m + 1 && second[0] == b && second[m] == c;
    JoinRuns(p, first, second);
    assert (first + second[1..])[k + m] == c;
  }

  /** One more step at the end of a run. */
  lemma ReachSnoc(p: Program, a: Control, k: nat, b: Control)
    requires ValidProgram(p) && ValidControl(p, b) && Reach(p, a, k, b) && !AtExit(p, b.pc)
    ensures Reach(p, a, k + 1, StepControl(p, b))
  {
    var path := [b, StepControl(p, b)];
    assert StepAt(p, path, 0);
    assert IsRun(p, path);
    ReachTrans(p, a, k, b, 1, path[1]);
  }

  /** Runs from one state agree as far as both go. */
  lemma {:induction false} RunsAgree(p: Program, first: seq<Control>, second: seq<Control>, i: nat)
    requires ValidProgram(p) && IsRun(p, first) && IsRun(p, second)
    requires first[0] == second[0] && i < |first| && i < |second|
    ensures first[i] == second[i]
  {
    if i > 0 {
      RunsAgree(p, first, second, i - 1);
      assert StepAt(p, first, i - 1) && StepAt(p, second, i - 1);
    }
  }

  lemma StepsOn(p: Program, path: seq<Control>, i: nat)
    requires ValidProgram(p) && IsRun(p, path)
    ensures i + 1 < |path| ==> !AtExit(p, path[i].pc)
  {
    if i + 1 < |path| {
      assert StepAt(p, path, i);
    }
  }

  /** A run halts at one time only, and everything it does lies before that time. */
  lemma HaltsOnce(p: Program, a: Control, k: nat, m: nat, b: Control)
    requires ValidProgram(p) && HaltsIn(p, a, k) && Reach(p, a, m, b)
    ensures m <= k
    ensures AtExit(p, b.pc) <==> m == k
  {
    var e :| Reach(p, a, k, e) && AtExit(p, e.pc);
    var long :| IsRun(p, long) && |long| == k + 1 && long[0] == a && long[k] == e;
    var short :| IsRun(p, short) && |short| == m + 1 && short[0] == a && short[m] == b;
    var both := if m > k then k else m;
    RunsAgree(p, long, short, both);
    StepsOn(p, short, both);
    StepsOn(p, long, both);
  }

  /** A run is in one state only after `k` steps. */
  lemma ReachOnce(p: Program, a: Control, k: nat, b: Control, c: Control)
    requires ValidProgram(p) && Reach(p, a, k, b) && Reach(p, a, k, c)
    ensures b == c
  {
    var first :| IsRun(p, first) && |first| == k + 1 && first[0] == a && first[k] == b;
    var second :| IsRun(p, second) && |second| == k + 1 && second[0] == a && second[k] == c;
    RunsAgree(p, first, second, k);
  }

  lemma ReachThenHalt(p: Program, a: Control, k: nat, b: Control, m: nat)
    requires ValidProgram(p) && Reach(p, a, k, b) && HaltsIn(p, b, m)
    ensures HaltsIn(p, a, k + m)
  {
    var e :| Reach(p, b, m, e) && AtExit(p, e.pc);
    ReachTrans(p, a, k, b, m, e);
  }

  /** Statements `pc .. pc + k` hold neither a branch nor an exit. */
  ghost predicate Straight(p: Program, pc: int, k: nat) {
    forall i | pc <= i < pc + k :: BranchAt(p, i) == None && !AtExit(p, i)
  }

  /** Straight-line code runs one statement a step. */
  lemma {:induction false} RunStraight(p: Program, c: Control, k: nat)
    requires ValidProgram(p) && ValidControl(p, c)
    requires Straight(p, c.pc, k) && c.pc + k <= p.size
    ensures Reach(p, c, k, c.(pc := c.pc + k))
    decreases k
  {
    if k == 0 {
      ReachNothing(p, c);
    } else {
      RunStraight(p, c, k - 1);
      ReachSnoc(p, c, k - 1, c.(pc := c.pc + k - 1));
    }
  }

  /** Runs from each state to the next chain up to a run from the first to the last. */
  lemma {:induction false} ReachChain(p: Program, states: seq<Control>, costs: seq<int>, n: nat)
    requires ValidProgram(p) && n < |states| && n <= |costs| && ValidControl(p, states[0])
    requires forall i | 0 <= i < n :: costs[i] >= 0 && Reach(p, states[i], costs[i], states[i + 1])
    ensures SumTo(costs, n) >= 0 && Reach(p, states[0], SumTo(costs, n), states[n])
    decreases n
  {
    if n == 0 {
      ReachNothing(p, states[0]);
    } else {
      ReachChain(p, states, costs, n - 1);
      ReachTrans(p, states[0], SumTo(costs, n - 1), states[n - 1], costs[n - 1], states[n]);
    }
  }

  /** The same with one cost for every leg. */
  lemma {:induction false} ReachRounds(p: Program, states: seq<Control>, cost: nat, n: nat)
    requires ValidProgram(p) && n < |states| && ValidControl(p, states[0])
    requires forall i | 0 <= i < n :: Reach(p, states[i], cost, states[i + 1])
    ensures n * cost >= 0 && Reach(p, states[0], n * cost, states[n])
    decreases n
  {
    if n == 0 {
      ReachNothing(p, states[0]);
    } else {
      ReachRounds(p, states, cost, n - 1);
      assert n * cost == (n - 1) * cost + cost;
      ReachTrans(p, states[0], (n - 1) * cost, states[n - 1], cost, states[n]);
    }
  }

  /** A chain of legs that ends on an exit. */
  lemma HaltsAfterChain(p: Program, states: seq<Control>, costs: seq<int>, n: nat)
    requires ValidProgram(p) && n < |states| && n == |costs| && ValidControl(p, states[0])
    requires forall i | 0 <= i < n :: costs[i] >= 0 && Reach(p, states[i], costs[i], states[i + 1])
    requires AtExit(p, states[n].pc)
    ensures Sum(costs) >= 0 && HaltsIn(p, states[0], Sum(costs))
  {
    ReachChain(p, states, costs, n);
  }

}
