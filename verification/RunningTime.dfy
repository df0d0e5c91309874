/**
 Exact running times of the five programs, for all random draws. A job that halts
 after `k` control steps finishes with `k + 1` compute ticks, since the exit
 statement takes one tick as well.
 */
module RunningTime {
  import opened Machine
  import opened Programs
  import opened Sums
  import opened BranchEngine
  import opened ControlFlow

  /** The branch contexts of a freshly loaded job. */
  ghost predicate Loaded(p: Program, ctxs: seq<Ctx>) {
    && |ctxs| == MAXBRANCHES
    && |p.branches| < MAXBRANCHES
    && (forall i | 0 <= i < |p.branches| :: ValidCtx(ctxs[i]) && Admissible(p.branches[i], ctxs[i]))
    && (forall i | |p.branches| <= i < MAXBRANCHES :: ctxs[i] == ClearedCtx())
  }

  function Start(ctxs: seq<Ctx>): Control {
    Control(0, ctxs)
  }

  lemma LoadedIsValid(p: Program, ctxs: seq<Ctx>)
    requires ValidProgram(p) && Loaded(p, ctxs)
    ensures ValidControl(p, Start(ctxs))
  {
  }

  /** Straight-line code up to and including a branch statement. */
  lemma RunToBranch(p: Program, c: Control, k: nat, i: nat)
    requires ValidProgram(p) && ValidControl(p, c)
    requires Straight(p, c.pc, k) && c.pc + k <= p.size
    requires if i < |p.branches| then p.branches[i].wherefrom == c.pc + k else i == |p.branches| == c.pc + k == 0
    requires !AtExit(p, c.pc + k)
    ensures i < MAXBRANCHES && ValidCtx(c.ctxs[i])
    ensures var (take, ctx) := Decide(c.ctxs[i]);
      var d := Control(BranchTarget(p, BranchCell(p, i), c.pc + k, take), c.ctxs[i := ctx]);
      ValidControl(p, d) && Reach(p, c, k + 1, d)
  {
    RunStraight(p, c, k);
    if i < |p.branches| {
      BranchIndex(p, c.pc + k, i);
    }
    ReachSnoc(p, c, k, c.(pc := c.pc + k));
  }

  /** A loop counter: `brings[0]` takes, then one escape. */
  ghost predicate Counter(c: Ctx) {
    && ValidCtx(c) && c.boffset == 0 && c.bcount == 0 && c.bvalue
    && c.brings[0] >= 1
  }

  lemma CounterDecides(c: Ctx, t: nat)
    requires Counter(c) && t <= c.brings[0]
    requires t == c.brings[0] ==> c.bsize > 1 || t == 0
    ensures Decide(After(c, t)).0 == (t < c.brings[0])
  {
    if t < c.brings[0] {
      InsideRun(c, t);
    } else {
      WholeRun(c);
    }
  }

  lemma LoopIsCounter(b: Branch, c: Ctx)
    requires Admissible(b, c) && b.btype == FOR && 1 <= b.min < b.max
    ensures Counter(c) && c.bsize == MAXBRINGS && b.min <= c.brings[0] < b.max
  {
    AdmissibleIsValid(b, c);
  }

  /** The contexts after `t` decisions of context `i`. */
  function Turned(cs: seq<Ctx>, i: nat, t: nat): (r: seq<Ctx>)
    requires i < |cs| && ValidCtx(cs[i])
    ensures |r| == |cs| && ValidCtx(r[i])
    ensures forall j | 0 <= j < |cs| && j != i :: r[j] == cs[j]
  {
    cs[i := After(cs[i], t)]
  }

  lemma TurnOnce(cs: seq<Ctx>, i: nat, t: nat)
    requires i < |cs| && ValidCtx(cs[i])
    ensures Turned(cs, i, 0) == cs
    ensures Turned(cs, i, t)[i := Decide(Turned(cs, i, t)[i]).1] == Turned(cs, i, t + 1)
  {
  }

  /** `n` rounds of a loop that starts at `pc` and is governed by context `i`. */
  lemma LoopRounds(p: Program, pc: int, cs: seq<Ctx>, i: nat, cost: nat, n: nat)
    requires ValidProgram(p) && ValidControl(p, Control(pc, cs)) && i < MAXBRANCHES
    requires forall t | 0 <= t < n ::
      Reach(p, Control(pc, Turned(cs, i, t)), cost, Control(pc, Turned(cs, i, t + 1)))
    ensures Reach(p, Control(pc, cs), n * cost, Control(pc, Turned(cs, i, n)))
  {
    var states := seq(n + 1, t requires 0 <= t <= n => Control(pc, Turned(cs, i, t)));
    TurnOnce(cs, i, 0);
    ReachRounds(p, states, cost, n);
  }

  // ---------- One loop ----------

  lemma OneLoopRound(cs: seq<Ctx>)
    requires ValidControl(ONE_LOOP, Start(cs))
    ensures var (take, ctx) := Decide(cs[0]);
      Reach(ONE_LOOP, Start(cs), 1130, Control(if take then 0 else 1130, cs[0 := ctx]))
  {
    RunToBranch(ONE_LOOP, Start(cs), 1129, 0);
  }

  lemma OneLoopRounds(cs: seq<Ctx>, n: nat)
    requires ValidControl(ONE_LOOP, Start(cs)) && Counter(cs[0])
    requires n <= cs[0].brings[0]
    ensures Reach(ONE_LOOP, Start(cs), n * 1130, Start(Turned(cs, 0, n)))
  {
    forall t | 0 <= t < n
      ensures Reach(ONE_LOOP, Control(0, Turned(cs, 0, t)), 1130, Control(0, Turned(cs, 0, t + 1)))
    {
      CounterDecides(cs[0], t);
      OneLoopRound(Turned(cs, 0, t));
      TurnOnce(cs, 0, t);
    }
    LoopRounds(ONE_LOOP, 0, cs, 0, 1130, n);
  }

  /** `k + 1` rounds of 1130 statements for a loop count of `k`. */
  lemma OneLoopTime(cs: seq<Ctx>)
    requires Loaded(ONE_LOOP, cs)
    ensures ValidControl(ONE_LOOP, Start(cs))
    ensures 20 <= cs[0].brings[0] < 50
    ensures HaltsIn(ONE_LOOP, Start(cs), 1130 * (cs[0].brings[0] + 1))
  {
    LoadedIsValid(ONE_LOOP, cs);
    LoopIsCounter(ONE_LOOP.branches[0], cs[0]);
    OneLoopHalts(cs);
  }

  lemma OneLoopHalts(cs: seq<Ctx>)
    requires ValidControl(ONE_LOOP, Start(cs)) && Counter(cs[0]) && cs[0].bsize > 1
    ensures HaltsIn(ONE_LOOP, Start(cs), 1130 * (cs[0].brings[0] + 1))
  {
    var k := cs[0].brings[0];
    OneLoopRounds(cs, k);
    OneLoopLastRound(cs);
    ReachThenHalt(ONE_LOOP, Start(cs), k * 1130, Start(Turned(cs, 0, k)), 1130);
  }

  lemma OneLoopLastRound(cs: seq<Ctx>)
    requires ValidControl(ONE_LOOP, Start(cs)) && Counter(cs[0]) && cs[0].bsize > 1
    ensures HaltsIn(ONE_LOOP, Start(Turned(cs, 0, cs[0].brings[0])), 1130)
  {
    var ds := Turned(cs, 0, cs[0].brings[0]);
    CounterDecides(cs[0], cs[0].brings[0]);
    OneLoopRound(ds);
  }

  // ---------- Doubly nested loop ----------

  /** One turn of the inner loop, from its branch statement. */
  lemma InnerTurn(cs: seq<Ctx>)
    requires ValidControl(DOUBLY_NESTED_LOOP, Control(1682, cs))
    ensures var (take, ctx) := Decide(cs[0]);
      if take
      then Reach(DOUBLY_NESTED_LOOP, Control(1682, cs), 517, Control(1682, cs[0 := ctx]))
      else Reach(DOUBLY_NESTED_LOOP, Control(1682, cs), 1, Control(1683, cs[0 := ctx]))
  {
    RunToBranch(DOUBLY_NESTED_LOOP, Control(1682, cs), 0, 0);
    var (take, ctx) := Decide(cs[0]);
    if take {
      RunStraight(DOUBLY_NESTED_LOOP, Control(1166, cs[0 := ctx]), 516);
      ReachTrans(DOUBLY_NESTED_LOOP, Control(1682, cs), 1, Control(1166, cs[0 := ctx]),
                 516, Control(1682, cs[0 := ctx]));
    }
  }

  lemma InnerTake(cs: seq<Ctx>, t: nat)
    requires ValidControl(DOUBLY_NESTED_LOOP, Control(1682, cs))
    requires cs[0].bcount == 0 && cs[0].bvalue && t < cs[0].brings[cs[0].boffset]
    ensures Reach(DOUBLY_NESTED_LOOP, Control(1682, Turned(cs, 0, t)), 517, Control(1682, Turned(cs, 0, t + 1)))
  {
    InsideRun(cs[0], t);
    InnerTurn(Turned(cs, 0, t));
    TurnOnce(cs, 0, t);
  }

  lemma InnerTurns(cs: seq<Ctx>, n: nat)
    requires ValidControl(DOUBLY_NESTED_LOOP, Control(1682, cs))
    requires cs[0].bcount == 0 && cs[0].bvalue && n <= cs[0].brings[cs[0].boffset]
    ensures Reach(DOUBLY_NESTED_LOOP, Control(1682, cs), n * 517, Control(1682, Turned(cs, 0, n)))
  {
    forall t | 0 <= t < n
      ensures Reach(DOUBLY_NESTED_LOOP, Control(1682, Turned(cs, 0, t)), 517, Control(1682, Turned(cs, 0, t + 1)))
    {
      InnerTake(cs, t);
    }
    LoopRounds(DOUBLY_NESTED_LOOP, 1682, cs, 0, 517, n);
  }

  /** All turns of the inner loop and its escape, from an even cell of its table. */
  lemma InnerLoop(cs: seq<Ctx>)
    requires ValidControl(DOUBLY_NESTED_LOOP, Control(1682, cs))
    requires cs[0].bcount == 0 && cs[0].bvalue && cs[0].boffset + 2 < cs[0].bsize
    requires cs[0].brings[cs[0].boffset] >= 1 && cs[0].brings[cs[0].boffset + 1] == 1
    ensures Reach(DOUBLY_NESTED_LOOP, Control(1682, cs), 517 * cs[0].brings[cs[0].boffset] + 1,
                  Control(1683, cs[0 := cs[0].(boffset := cs[0].boffset + 2)]))
  {
    var c, k := cs[0], cs[0].brings[cs[0].boffset];
    InnerTurns(cs, k);
    WholeRun(c);
    var ds := cs[0 := c.(boffset := c.boffset + 1, bvalue := false)];
    assert ds == Turned(cs, 0, k);
    InnerEscape(ds);
    var es := cs[0 := c.(boffset := c.boffset + 2)];
    assert es == ds[0 := ds[0].(boffset := ds[0].boffset + 1, bvalue := true)];
    ReachTrans(DOUBLY_NESTED_LOOP, Control(1682, cs), 517 * k, Control(1682, ds), 1, Control(1683, es));
  }

  lemma InnerEscape(cs: seq<Ctx>)
    requires ValidControl(DOUBLY_NESTED_LOOP, Control(1682, cs))
    requires cs[0].bcount == 0 && !cs[0].bvalue && cs[0].boffset + 1 < cs[0].bsize
    requires cs[0].brings[cs[0].boffset] == 1
    ensures Reach(DOUBLY_NESTED_LOOP, Control(1682, cs), 1,
                  Control(1683, cs[0 := cs[0].(boffset := cs[0].boffset + 1, bvalue := true)]))
  {
    InnerTurn(cs);
  }

  /** One round of the outer loop. */
  lemma OuterRound(cs: seq<Ctx>)
    requires ValidControl(DOUBLY_NESTED_LOOP, Start(cs))
    requires cs[0].bcount == 0 && cs[0].bvalue && cs[0].boffset + 2 < cs[0].bsize
    requires cs[0].brings[cs[0].boffset] >= 1 && cs[0].brings[cs[0].boffset + 1] == 1
    ensures var (take, ctx) := Decide(cs[1]);
      Reach(DOUBLY_NESTED_LOOP, Start(cs), 1684 + 517 * cs[0].brings[cs[0].boffset],
            Control(if take then 0 else 1684, cs[0 := cs[0].(boffset := cs[0].boffset + 2)][1 := ctx]))
  {
    var k := cs[0].brings[cs[0].boffset];
    RunStraight(DOUBLY_NESTED_LOOP, Start(cs), 1682);
    InnerLoop(cs);
    var ds := cs[0 := cs[0].(boffset := cs[0].boffset + 2)];
    ReachTrans(DOUBLY_NESTED_LOOP, Start(cs), 1682, Control(1682, cs), 517 * k + 1, Control(1683, ds));
    OuterBranch(ds);
    var (take, ctx) := Decide(cs[1]);
    ReachTrans(DOUBLY_NESTED_LOOP, Start(cs), 1683 + 517 * k, Control(1683, ds), 1,
               Control(if take then 0 else 1684, ds[1 := ctx]));
  }

  lemma OuterBranch(cs: seq<Ctx>)
    requires ValidControl(DOUBLY_NESTED_LOOP, Control(1683, cs))
    ensures var (take, ctx) := Decide(cs[1]);
      Reach(DOUBLY_NESTED_LOOP, Control(1683, cs), 1, Control(if take then 0 else 1684, cs[1 := ctx]))
  {
    RunToBranch(DOUBLY_NESTED_LOOP, Control(1683, cs), 0, 1);
  }

  /** The contexts at the start of outer round `j`. */
  function NestCtxs(cs: seq<Ctx>, j: nat): (r: seq<Ctx>)
    requires |cs| == MAXBRANCHES && ValidCtx(cs[1])
    ensures |r| == MAXBRANCHES
  {
    cs[0 := cs[0].(boffset := 2 * j)][1 := After(cs[1], j)]
  }

  /** The cost of each outer round. */
  function NestCosts(brings: seq<int>, n: nat): (r: seq<int>)
    requires 2 * n <= |brings|
    ensures |r| == n
  {
    seq(n, j requires 0 <= j < n => 1684 + 517 * brings[2 * j])
  }

  ghost predicate NestLoaded(cs: seq<Ctx>) {
    && |cs| == MAXBRANCHES
    && (forall i | 0 <= i < MAXBRANCHES :: ValidCtx(cs[i]))
    && Counter(cs[0]) && cs[0].bsize == MAXBRINGS
    && (forall i | 0 <= i < MAXBRINGS :: cs[0].brings[i] >= 1 && (i % 2 == 1 ==> cs[0].brings[i] == 1))
    && Counter(cs[1]) && cs[1].brings[0] < 20 && cs[1].bsize == MAXBRINGS
  }

  lemma NestRound(cs: seq<Ctx>, j: nat)
    requires NestLoaded(cs) && j <= cs[1].brings[0]
    ensures ValidControl(DOUBLY_NESTED_LOOP, Start(NestCtxs(cs, j)))
    ensures Reach(DOUBLY_NESTED_LOOP, Start(NestCtxs(cs, j)), 1684 + 517 * cs[0].brings[2 * j],
                  Control(if j < cs[1].brings[0] then 0 else 1684, NestCtxs(cs, j + 1)))
  {
    var ds := NestCtxs(cs, j);
    assert (2 * j + 1) % 2 == 1;
    OuterRound(ds);
    CounterDecides(cs[1], j);
    assert ds[0 := ds[0].(boffset := ds[0].boffset + 2)][1 := Decide(ds[1]).1] == NestCtxs(cs, j + 1);
  }

  /** `m + 1` outer rounds for an outer count of `m`, each with its own inner count. */
  lemma DoublyNestedLoopTime(cs: seq<Ctx>)
    requires Loaded(DOUBLY_NESTED_LOOP, cs)
    ensures ValidControl(DOUBLY_NESTED_LOOP, Start(cs))
    ensures 10 <= cs[1].brings[0] < 20
    ensures var m := cs[1].brings[0];
      && InnerTakes(cs[0].brings, m + 1) >= 0
      && HaltsIn(DOUBLY_NESTED_LOOP, Start(cs), 1684 * (m + 1) + 517 * InnerTakes(cs[0].brings, m + 1))
  {
    LoadedIsValid(DOUBLY_NESTED_LOOP, cs);
    LoadedNest(cs);
    NestTime(cs);
  }

  lemma NestTime(cs: seq<Ctx>)
    requires NestLoaded(cs) && ValidControl(DOUBLY_NESTED_LOOP, Start(cs))
    ensures var m := cs[1].brings[0];
      && InnerTakes(cs[0].brings, m + 1) >= 0
      && HaltsIn(DOUBLY_NESTED_LOOP, Start(cs), 1684 * (m + 1) + 517 * InnerTakes(cs[0].brings, m + 1))
  {
    InnerTakesPositive(cs[0].brings, cs[1].brings[0] + 1);
    NestCostsSum(cs[0].brings, cs[1].brings[0] + 1);
    NestHalts(cs);
  }

  lemma LoadedNest(cs: seq<Ctx>)
    requires Loaded(DOUBLY_NESTED_LOOP, cs)
    ensures NestLoaded(cs) && 10 <= cs[1].brings[0]
  {
    LoadedIsValid(DOUBLY_NESTED_LOOP, cs);
    AdmissibleIsValid(DOUBLY_NESTED_LOOP.branches[0], cs[0]);
    LoopIsCounter(DOUBLY_NESTED_LOOP.branches[1], cs[1]);
  }

  lemma {:induction false} InnerTakesPositive(brings: seq<int>, n: nat)
    requires 2 * n <= |brings| && AllPositive(brings, 2 * n)
    ensures InnerTakes(brings, n) >= 0
  {
    if n > 0 {
      InnerTakesPositive(brings, n - 1);
    }
  }

  /** The start of each round, and the exit. */
  function NestStates(cs: seq<Ctx>, m: nat): (r: seq<Control>)
    requires |cs| == MAXBRANCHES && ValidCtx(cs[1])
    ensures |r| == m + 2
    ensures forall j | 0 <= j <= m + 1 :: r[j] == Control(if j <= m then 0 else 1684, NestCtxs(cs, j))
  {
    seq(m + 2, j requires 0 <= j <= m + 1 => Control(if j <= m then 0 else 1684, NestCtxs(cs, j)))
  }

  lemma NestStep(cs: seq<Ctx>, m: nat, j: nat)
    requires NestLoaded(cs) && m == cs[1].brings[0] && j <= m
    ensures var states, costs := NestStates(cs, m), NestCosts(cs[0].brings, m + 1);
      && ValidControl(DOUBLY_NESTED_LOOP, states[j]) && costs[j] >= 0
      && Reach(DOUBLY_NESTED_LOOP, states[j], costs[j], states[j + 1])
  {
    NestRound(cs, j);
  }

  lemma NestHalts(cs: seq<Ctx>)
    requires NestLoaded(cs) && ValidControl(DOUBLY_NESTED_LOOP, Start(cs))
    ensures var m := cs[1].brings[0];
      && Sum(NestCosts(cs[0].brings, m + 1)) >= 0
      && HaltsIn(DOUBLY_NESTED_LOOP, Start(cs), Sum(NestCosts(cs[0].brings, m + 1)))
  {
    var m := cs[1].brings[0];
    var states, costs := NestStates(cs, m), NestCosts(cs[0].brings, m + 1);
    forall j | 0 <= j <= m
      ensures costs[j] >= 0 && Reach(DOUBLY_NESTED_LOOP, states[j], costs[j], states[j + 1])
    {
      NestStep(cs, m, j);
    }
    NestStep(cs, m, 0);
    assert states[0] == Start(cs) by {
      assert NestCtxs(cs, 0) == cs;
    }
    HaltsAfterChain(DOUBLY_NESTED_LOOP, states, costs, m + 1);
  }

  /** The closed form: the counts of the inner loop sit in the even cells of its table. */
  lemma {:induction false} NestCostsSum(brings: seq<int>, n: nat)
    requires 2 * n <= |brings|
    ensures Sum(NestCosts(brings, n)) == 1684 * n + 517 * InnerTakes(brings, n)
  {
    if n > 0 {
      NestCostsSum(brings, n - 1);
      SumPrefix(NestCosts(brings, n - 1), NestCosts(brings, n), n - 1);
    }
  }

  function InnerTakes(brings: seq<int>, n: nat): int
    requires 2 * n <= |brings|
  {
    if n == 0 then 0 else InnerTakes(brings, n - 1) + brings[2 * (n - 1)]
  }

  lemma {:induction false} SumPrefix(xs: seq<int>, ys: seq<int>, n: nat)
    requires n <= |xs| && n <= |ys| && xs[..n] == ys[..n]
    ensures SumTo(xs, n) == SumTo(ys, n)
  {
    if n > 0 {
      assert xs[n - 1] == xs[..n][n - 1] == ys[..n][n - 1];
      assert xs[..n - 1] == xs[..n][..n - 1] && ys[..n - 1] == ys[..n][..n - 1];
      SumPrefix(xs, ys, n - 1);
    }
  }
}
