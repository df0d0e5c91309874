/** Running times of the programs whose path depends on IF draws, and of the linear one. */
module BranchingTime {
  import opened Machine
  import opened Programs
  import opened Sums
  import opened BranchEngine
  import opened ControlFlow
  import opened RunningTime

  // ---------- The linear program ----------

  /**
   Without a branch table, statement 0 is compared with the zero-initialised first cell,
   whose cleared context takes that branch (to 0) once. Hence 1912 steps, not 1911.
   */
  lemma LinearTime(cs: seq<Ctx>)
    requires Loaded(LINEAR, cs)
    ensures ValidControl(LINEAR, Start(cs))
    ensures HaltsIn(LINEAR, Start(cs), 1912)
  {
    LoadedIsValid(LINEAR, cs);
    RunToBranch(LINEAR, Start(cs), 0, 0);
    var once := cs[0 := Decide(cs[0]).1];
    RunToBranch(LINEAR, Start(once), 0, 0);
    var twice := Control(1, once[0 := Decide(once[0]).1]);
    ReachTrans(LINEAR, Start(cs), 1, Start(once), 1, twice);
    RunStraight(LINEAR, twice, 1910);
    ReachThenHalt(LINEAR, Start(cs), 2, twice, 1910);
  }

  // ---------- Streams of IF draws ----------

  /** How many of the next `n` decisions of `c` take the branch. */
  function Takes(c: Ctx, n: nat): (r: nat)
    requires ValidCtx(c)
    ensures r <= n
    decreases n
  {
    if n == 0 then 0 else Takes(Decide(c).1, n - 1) + (if Decide(c).0 then 1 else 0)
  }

  /** How many of the first `n` draws are true. */
  function Trues(draws: seq<bool>, n: nat): (r: nat)
    requires n <= |draws|
    ensures r <= n
  {
    if n == 0 then 0 else Trues(draws, n - 1) + (if draws[n - 1] then 1 else 0)
  }

  lemma {:induction false} OneMoreTake(c: Ctx, n: nat)
    requires ValidCtx(c)
    ensures Takes(c, n + 1) == Takes(c, n) + (if Decide(After(c, n)).0 then 1 else 0)
    decreases n
  {
    if n > 0 {
      OneMoreTake(Decide(c).1, n - 1);
      AfterAdd(c, 1, n - 1);
      assert After(c, 1) == Decide(After(c, 0)).1;
    }
  }

  lemma {:induction false} TakesAreOutputs(c: Ctx, n: nat, m: nat)
    requires ValidCtx(c) && n <= m
    ensures Takes(c, n) == Trues(Outputs(c, m), n)
    decreases m, n
  {
    if n == m && n > 0 {
      OneMoreTake(c, n - 1);
      TakesAreOutputs(c, n - 1, n - 1);
      TruesOfPrefix(Outputs(c, n - 1), Outputs(c, n), n - 1);
    } else if n < m {
      TakesAreOutputs(c, n, m - 1);
      TruesOfPrefix(Outputs(c, m - 1), Outputs(c, m), n);
    }
  }

  lemma {:induction false} TruesOfPrefix(draws: seq<bool>, draws': seq<bool>, n: nat)
    requires n <= |draws| && n <= |draws'| && forall i | 0 <= i < n :: draws[i] == draws'[i]
    ensures Trues(draws, n) == Trues(draws', n)
  {
    if n > 0 {
      TruesOfPrefix(draws, draws', n - 1);
    }
  }

  /** As far as its hundred runs go, an IF takes its branch as often as its draws say. */
  lemma TakesAreDraws(c: Ctx, draws: seq<bool>, n: nat)
    requires CodesDraws(c, draws) && n <= Sum(c.brings)
    ensures ValidCtx(c) && n <= |draws| && Takes(c, n) == Trues(draws, n)
  {
    ReplaysDraws(c, draws);
    var m := Sum(c.brings);
    TakesAreOutputs(c, n, m);
    TruesOfPrefix(draws[..m], draws, n);
  }

  /** The next `n` decisions of a GOTO or loop context all take the branch. */
  ghost predicate TakesAtLeast(c: Ctx, n: int)
    requires ValidCtx(c)
  {
    n > 0 ==> c.bvalue && c.brings[c.boffset] - c.bcount >= n
  }

  /** A loop context takes its branch `n` more times and then lets go. */
  ghost predicate TakesLeft(c: Ctx, n: nat)
    requires ValidCtx(c)
  {
    if n == 0 then !c.bvalue else c.bvalue && c.brings[c.boffset] - c.bcount == n
  }

  lemma OneTakeLess(c: Ctx, n: nat)
    requires ValidCtx(c)
    ensures TakesAtLeast(c, n + 1) ==> Decide(c).0 && TakesAtLeast(Decide(c).1, n)
    ensures TakesLeft(c, n + 1) ==> Decide(c).0 && TakesLeft(Decide(c).1, n)
    ensures TakesLeft(c, 0) ==> !Decide(c).0
  {
  }

  // ---------- Loop with an inner branch ----------

  lemma IfTaken(cs: seq<Ctx>)
    requires ValidControl(LOOP_WITH_INNER_BRANCH, Start(cs)) && Decide(cs[0]).0
    ensures Reach(LOOP_WITH_INNER_BRANCH, Start(cs), 632, Control(1533, cs[0 := Decide(cs[0]).1]))
  {
    RunToBranch(LOOP_WITH_INNER_BRANCH, Start(cs), 500, 0);
    var ds := cs[0 := Decide(cs[0]).1];
    RunStraight(LOOP_WITH_INNER_BRANCH, Control(1402, ds), 131);
    ReachTrans(LOOP_WITH_INNER_BRANCH, Start(cs), 501, Control(1402, ds), 131, Control(1533, ds));
  }

  lemma IfNotTaken(cs: seq<Ctx>)
    requires ValidControl(LOOP_WITH_INNER_BRANCH, Start(cs)) && !Decide(cs[0]).0 && Decide(cs[1]).0
    ensures Reach(LOOP_WITH_INNER_BRANCH, Start(cs), 1402,
                  Control(1533, cs[0 := Decide(cs[0]).1][1 := Decide(cs[1]).1]))
  {
    RunToBranch(LOOP_WITH_INNER_BRANCH, Start(cs), 500, 0);
    var ds := cs[0 := Decide(cs[0]).1];
    ElseArm(ds);
    ReachTrans(LOOP_WITH_INNER_BRANCH, Start(cs), 501, Control(501, ds), 901, Control(1533, ds[1 := Decide(cs[1]).1]));
  }

  lemma ElseArm(cs: seq<Ctx>)
    requires ValidControl(LOOP_WITH_INNER_BRANCH, Control(501, cs)) && Decide(cs[1]).0
    ensures Reach(LOOP_WITH_INNER_BRANCH, Control(501, cs), 901, Control(1533, cs[1 := Decide(cs[1]).1]))
  {
    RunToBranch(LOOP_WITH_INNER_BRANCH, Control(501, cs), 900, 1);
  }

  lemma LoopBranch(cs: seq<Ctx>)
    requires ValidControl(LOOP_WITH_INNER_BRANCH, Control(1533, cs))
    ensures var (take, ctx) := Decide(cs[2]);
      Reach(LOOP_WITH_INNER_BRANCH, Control(1533, cs), 1, Control(if take then 0 else 1534, cs[2 := ctx]))
  {
    RunToBranch(LOOP_WITH_INNER_BRANCH, Control(1533, cs), 0, 2);
  }

  /** One decision of context `i`, and one of context `j` if that one did not take. */
  function RoundCtxs(cs: seq<Ctx>, i: nat, j: nat): (r: seq<Ctx>)
    requires |cs| == MAXBRANCHES && i < MAXBRANCHES && j < MAXBRANCHES && i != j
    requires ValidCtx(cs[i]) && ValidCtx(cs[j])
    ensures |r| == MAXBRANCHES
  {
    if Decide(cs[i]).0 then cs[i := Decide(cs[i]).1]
    else cs[i := Decide(cs[i]).1][j := Decide(cs[j]).1]
  }

  lemma BranchyBody(cs: seq<Ctx>)
    requires ValidControl(LOOP_WITH_INNER_BRANCH, Start(cs)) && (Decide(cs[0]).0 || Decide(cs[1]).0)
    ensures Reach(LOOP_WITH_INNER_BRANCH, Start(cs), if Decide(cs[0]).0 then 633 else 1403,
                  Control(if Decide(cs[2]).0 then 0 else 1534, RoundCtxs(cs, 0, 1)[2 := Decide(cs[2]).1]))
  {
    if Decide(cs[0]).0 {
      IfTaken(cs);
    } else {
      IfNotTaken(cs);
    }
    var cost := if Decide(cs[0]).0 then 632 else 1402;
    var ds := RoundCtxs(cs, 0, 1);
    LoopBranch(ds);
    ReachTrans(LOOP_WITH_INNER_BRANCH, Start(cs), cost, Control(1533, ds), 1,
               Control(if Decide(cs[2]).0 then 0 else 1534, ds[2 := Decide(cs[2]).1]));
  }

  /** 633 statements for a round in which the IF is taken, 1403 for one in which it is not. */
  function BranchyTime(c: Ctx, rounds: nat): (r: nat)
    requires ValidCtx(c)
  {
    633 * Takes(c, rounds) + 1403 * (rounds - Takes(c, rounds))
  }

  /** At the start of a round, with `left` more turns of the loop to come. */
  ghost predicate BranchyReady(cs: seq<Ctx>, left: nat) {
    ValidControl(LOOP_WITH_INNER_BRANCH, Start(cs)) && TakesAtLeast(cs[1], left + 1) && TakesLeft(cs[2], left)
  }

  lemma BranchyLast(cs: seq<Ctx>)
    requires BranchyReady(cs, 0)
    ensures HaltsIn(LOOP_WITH_INNER_BRANCH, Start(cs), BranchyTime(cs[0], 1))
  {
    OneTakeLess(cs[1], 0);
    OneTakeLess(cs[2], 0);
    BranchyBody(cs);
  }

  lemma BranchyNext(cs: seq<Ctx>, left: nat) returns (ds: seq<Ctx>)
    requires BranchyReady(cs, left) && left > 0
    ensures BranchyReady(ds, left - 1) && ds[0] == Decide(cs[0]).1
    ensures Reach(LOOP_WITH_INNER_BRANCH, Start(cs), if Decide(cs[0]).0 then 633 else 1403, Start(ds))
  {
    OneTakeLess(cs[1], left);
    OneTakeLess(cs[2], left - 1);
    BranchyBody(cs);
    ds := RoundCtxs(cs, 0, 1)[2 := Decide(cs[2]).1];
  }

  lemma BranchyTimeNext(c: Ctx, rounds: nat)
    requires ValidCtx(c)
    ensures BranchyTime(c, rounds + 1) == (if Decide(c).0 then 633 else 1403) + BranchyTime(Decide(c).1, rounds)
  {
  }

  lemma BranchyThenHalt(cs: seq<Ctx>, ds: seq<Ctx>, left: nat)
    requires ValidControl(LOOP_WITH_INNER_BRANCH, Start(cs)) && |ds| == MAXBRANCHES && ds[0] == Decide(cs[0]).1
    requires Reach(LOOP_WITH_INNER_BRANCH, Start(cs), if Decide(cs[0]).0 then 633 else 1403, Start(ds))
    requires HaltsIn(LOOP_WITH_INNER_BRANCH, Start(ds), BranchyTime(ds[0], left))
    ensures HaltsIn(LOOP_WITH_INNER_BRANCH, Start(cs), BranchyTime(cs[0], left + 1))
  {
    BranchyTimeNext(cs[0], left);
    var cost := if Decide(cs[0]).0 then 633 else 1403;
    ReachThenHalt(LOOP_WITH_INNER_BRANCH, Start(cs), cost, Start(ds), BranchyTime(ds[0], left));
  }

  lemma {:induction false} BranchyRounds(cs: seq<Ctx>, left: nat)
    requires BranchyReady(cs, left)
    ensures HaltsIn(LOOP_WITH_INNER_BRANCH, Start(cs), BranchyTime(cs[0], left + 1))
    decreases left
  {
    if left == 0 {
      BranchyLast(cs);
    } else {
      var ds := BranchyNext(cs, left);
      BranchyRounds(ds, left - 1);
      BranchyThenHalt(cs, ds, left);
    }
  }

  /** `n + 1` rounds for a loop count of `n`. */
  lemma LoopWithInnerBranchTime(cs: seq<Ctx>)
    requires Loaded(LOOP_WITH_INNER_BRANCH, cs)
    ensures ValidControl(LOOP_WITH_INNER_BRANCH, Start(cs))
    ensures 10 <= cs[2].brings[0] < 30
    ensures HaltsIn(LOOP_WITH_INNER_BRANCH, Start(cs), BranchyTime(cs[0], cs[2].brings[0] + 1))
  {
    LoopIsCounter(LOOP_WITH_INNER_BRANCH.branches[2], cs[2]);
    assert Admissible(LOOP_WITH_INNER_BRANCH.branches[1], cs[1]);
    BranchyRounds(cs, cs[2].brings[0]);
  }

  /** 633 statements for each true toss, 1403 for each false one. */
  function TossTime(draws: seq<bool>, rounds: nat): (r: nat)
    requires rounds <= |draws|
  {
    633 * Trues(draws, rounds) + 1403 * (rounds - Trues(draws, rounds))
  }

  lemma BranchyTimeOfTosses(c: Ctx, draws: seq<bool>, rounds: nat)
    requires CodesDraws(c, draws) && rounds <= MAXBRINGS
    ensures ValidCtx(c) && rounds <= |draws| && BranchyTime(c, rounds) == TossTime(draws, rounds)
  {
    ExpandLength(c.brings, MAXBRINGS, c.bvalue);
    TakesAreDraws(c, draws, rounds);
  }

  /** The running time in terms of the coin tosses themselves. */
  lemma LoopWithInnerBranchDraws(cs: seq<Ctx>, draws: seq<bool>)
    requires Loaded(LOOP_WITH_INNER_BRANCH, cs) && CodesDraws(cs[0], draws)
    ensures var rounds := cs[2].brings[0] + 1;
      && ValidControl(LOOP_WITH_INNER_BRANCH, Start(cs)) && 10 < rounds <= 30 && rounds <= |draws|
      && HaltsIn(LOOP_WITH_INNER_BRANCH, Start(cs), TossTime(draws, rounds))
  {
    LoopWithInnerBranchTime(cs);
    BranchyTimeOfTosses(cs[0], draws, cs[2].brings[0] + 1);
  }

  // ---------- Probabilistic backward branch ----------

  lemma RetryBranch(cs: seq<Ctx>)
    requires ValidControl(BACKWARD_BRANCH, Start(cs))
    ensures Reach(BACKWARD_BRANCH, Start(cs), 501,
                  Control(if Decide(cs[0]).0 then 503 else 501, cs[0 := Decide(cs[0]).1]))
  {
    RunToBranch(BACKWARD_BRANCH, Start(cs), 500, 0);
  }

  lemma RetryGoto(cs: seq<Ctx>)
    requires ValidControl(BACKWARD_BRANCH, Control(501, cs))
    ensures Reach(BACKWARD_BRANCH, Control(501, cs), 1,
                  Control(if Decide(cs[1]).0 then 0 else 502, cs[1 := Decide(cs[1]).1]))
  {
    RunToBranch(BACKWARD_BRANCH, Control(501, cs), 0, 1);
  }

  lemma RetryExhausted(cs: seq<Ctx>)
    requires ValidControl(BACKWARD_BRANCH, Control(502, cs))
    ensures Reach(BACKWARD_BRANCH, Control(502, cs), 1, Control(503, cs[2 := Decide(cs[2]).1]))
  {
    RunToBranch(BACKWARD_BRANCH, Control(502, cs), 0, 2);
  }

  lemma RetryLoop(cs: seq<Ctx>)
    requires ValidControl(BACKWARD_BRANCH, Control(503, cs))
    ensures Reach(BACKWARD_BRANCH, Control(503, cs), 1,
                  Control(if Decide(cs[3]).0 then 0 else 504, cs[3 := Decide(cs[3]).1]))
  {
    RunToBranch(BACKWARD_BRANCH, Control(503, cs), 0, 3);
  }

  /** One round: on to the loop branch, or back to the start. */
  lemma RetryTaken(cs: seq<Ctx>)
    requires ValidControl(BACKWARD_BRANCH, Start(cs)) && Decide(cs[0]).0
    ensures Reach(BACKWARD_BRANCH, Start(cs), 502,
                  Control(if Decide(cs[3]).0 then 0 else 504, cs[0 := Decide(cs[0]).1][3 := Decide(cs[3]).1]))
  {
    RetryBranch(cs);
    var ds := cs[0 := Decide(cs[0]).1];
    RetryLoop(ds);
    ReachTrans(BACKWARD_BRANCH, Start(cs), 501, Control(503, ds), 1,
               Control(if Decide(cs[3]).0 then 0 else 504, ds[3 := Decide(cs[3]).1]));
  }

  lemma RetryBack(cs: seq<Ctx>)
    requires ValidControl(BACKWARD_BRANCH, Start(cs)) && !Decide(cs[0]).0
    ensures Reach(BACKWARD_BRANCH, Start(cs), 502,
                  Control(if Decide(cs[1]).0 then 0 else 502, cs[0 := Decide(cs[0]).1][1 := Decide(cs[1]).1]))
  {
    RetryBranch(cs);
    RetryBackLeg(cs, cs[0 := Decide(cs[0]).1]);
  }

  lemma RetryBackLeg(cs: seq<Ctx>, ds: seq<Ctx>)
    requires ValidControl(BACKWARD_BRANCH, Start(cs)) && ValidControl(BACKWARD_BRANCH, Control(501, ds))
    requires Reach(BACKWARD_BRANCH, Start(cs), 501, Control(501, ds))
    ensures Reach(BACKWARD_BRANCH, Start(cs), 502,
                  Control(if Decide(ds[1]).0 then 0 else 502, ds[1 := Decide(ds[1]).1]))
  {
    RetryGoto(ds);
    ReachTrans(BACKWARD_BRANCH, Start(cs), 501, Control(501, ds), 1,
               Control(if Decide(ds[1]).0 then 0 else 502, ds[1 := Decide(ds[1]).1]));
  }

  /** When the GOTO has let go, the round reaches the loop branch the long way. */
  lemma RetryFallsThrough(cs: seq<Ctx>)
    requires ValidControl(BACKWARD_BRANCH, Start(cs)) && !Decide(cs[0]).0 && !Decide(cs[1]).0
    ensures Reach(BACKWARD_BRANCH, Start(cs), 504,
                  Control(if Decide(cs[3]).0 then 0 else 504,
                          cs[0 := Decide(cs[0]).1][1 := Decide(cs[1]).1][2 := Decide(cs[2]).1][3 := Decide(cs[3]).1]))
  {
    RetryBack(cs);
    var ds := cs[0 := Decide(cs[0]).1][1 := Decide(cs[1]).1];
    RetryExhausted(ds);
    var es := ds[2 := Decide(cs[2]).1];
    RetryLoop(es);
    var end := Control(if Decide(cs[3]).0 then 0 else 504, es[3 := Decide(cs[3]).1]);
    ReachTrans(BACKWARD_BRANCH, Control(502, ds), 1, Control(503, es), 1, end);
    ReachTrans(BACKWARD_BRANCH, Start(cs), 502, Control(502, ds), 2, end);
  }

  /** The contexts after one round, whatever the draws. */
  function RetryAfter(cs: seq<Ctx>): (r: seq<Ctx>)
    requires |cs| == MAXBRANCHES && forall i | 0 <= i < MAXBRANCHES :: ValidCtx(cs[i])
    ensures |r| == MAXBRANCHES && forall i | 0 <= i < MAXBRANCHES :: ValidCtx(r[i])
    ensures r[0] == Decide(cs[0]).1
    ensures r[1] == if Decide(cs[0]).0 then cs[1] else Decide(cs[1]).1
    ensures r[3] == if Decide(cs[0]).0 || !Decide(cs[1]).0 then Decide(cs[3]).1 else cs[3]
  {
    if Decide(cs[0]).0 then cs[0 := Decide(cs[0]).1][3 := Decide(cs[3]).1]
    else if Decide(cs[1]).0 then cs[0 := Decide(cs[0]).1][1 := Decide(cs[1]).1]
    else cs[0 := Decide(cs[0]).1][1 := Decide(cs[1]).1][2 := Decide(cs[2]).1][3 := Decide(cs[3]).1]
  }

  lemma AnyRound(cs: seq<Ctx>)
    requires ValidControl(BACKWARD_BRANCH, Start(cs))
    ensures var straight := Decide(cs[0]).0 || Decide(cs[1]).0;
      var looped := Decide(cs[0]).0 || !Decide(cs[1]).0;
      Reach(BACKWARD_BRANCH, Start(cs), if straight then 502 else 504,
            Control(if looped && !Decide(cs[3]).0 then 504 else 0, RetryAfter(cs)))
  {
    if Decide(cs[0]).0 {
      RetryTaken(cs);
    } else if Decide(cs[1]).0 {
      RetryBack(cs);
    } else {
      RetryFallsThrough(cs);
    }
  }

  /** How many of the next `n` decisions of `c` do not take the branch. */
  function Refusals(c: Ctx, n: nat): nat
    requires ValidCtx(c)
  {
    n - Takes(c, n)
  }

  /**
   How many turns of the loop branch come in `n` rounds: one if the IF takes its branch, and
   one if neither the IF nor the GOTO does. The GOTO is only asked when the IF does not take.
   */
  function Turns(ifCtx: Ctx, gotoCtx: Ctx, n: nat): nat
    requires ValidCtx(ifCtx) && ValidCtx(gotoCtx)
  {
    Takes(ifCtx, n) + Refusals(gotoCtx, Refusals(ifCtx, n))
  }

  /** 502 statements a round, and two more if neither takes. */
  function RetryTime(ifCtx: Ctx, gotoCtx: Ctx, n: nat): nat
    requires ValidCtx(ifCtx) && ValidCtx(gotoCtx)
  {
    502 * n + 2 * Refusals(gotoCtx, Refusals(ifCtx, n))
  }

  lemma TurnsNext(c: Ctx, d: Ctx, n: nat)
    requires ValidCtx(c) && ValidCtx(d)
    ensures var looped := Decide(c).0 || !Decide(d).0;
      Turns(c, d, n + 1)
      == (if looped then 1 else 0) + Turns(Decide(c).1, if Decide(c).0 then d else Decide(d).1, n)
    ensures RetryTime(c, d, n + 1)
         == (if Decide(c).0 || Decide(d).0 then 502 else 504)
            + RetryTime(Decide(c).1, if Decide(c).0 then d else Decide(d).1, n)
  {
    if !Decide(c).0 {
      assert Refusals(c, n + 1) == 1 + Refusals(Decide(c).1, n);
    }
  }

  /** Round `rounds` is the one with turn number `count`. */
  ghost predicate NthTurn(c: Ctx, d: Ctx, count: nat, rounds: nat)
    requires ValidCtx(c) && ValidCtx(d)
  {
    rounds > 0 && Turns(c, d, rounds - 1) + 1 == Turns(c, d, rounds) == count
  }

  lemma NthTurnNext(c: Ctx, d: Ctx, count: nat, rounds: nat)
    requires ValidCtx(c) && ValidCtx(d) && NthTurn(c, d, count, rounds)
    ensures var looped := Decide(c).0 || !Decide(d).0;
      if rounds == 1 then looped && count == 1
      else (looped ==> count > 1) && NthTurn(Decide(c).1, if Decide(c).0 then d else Decide(d).1,
                                             if looped then count - 1 else count, rounds - 1)
  {
    TurnsNext(c, d, rounds - 1);
    if rounds > 1 {
      TurnsNext(c, d, rounds - 2);
    }
  }

  /** At the start of a round, with `left` more turns of the loop to come; turn `left + 1` is in round `rounds`. */
  ghost predicate RetryReady(cs: seq<Ctx>, left: nat, rounds: nat) {
    ValidControl(BACKWARD_BRANCH, Start(cs)) && TakesLeft(cs[3], left) && NthTurn(cs[0], cs[1], left + 1, rounds)
  }

  lemma RetryLast(cs: seq<Ctx>, left: nat)
    requires RetryReady(cs, left, 1)
    ensures HaltsIn(BACKWARD_BRANCH, Start(cs), RetryTime(cs[0], cs[1], 1))
  {
    NthTurnNext(cs[0], cs[1], left + 1, 1);
    OneTakeLess(cs[3], 0);
    TurnsNext(cs[0], cs[1], 0);
    AnyRound(cs);
  }

  lemma RetryNext(cs: seq<Ctx>, left: nat, rounds: nat) returns (ds: seq<Ctx>, left': nat)
    requires RetryReady(cs, left, rounds) && rounds > 1
    ensures RetryReady(ds, left', rounds - 1)
    ensures ds[0] == Decide(cs[0]).1 && ds[1] == if Decide(cs[0]).0 then cs[1] else Decide(cs[1]).1
    ensures Reach(BACKWARD_BRANCH, Start(cs), if Decide(cs[0]).0 || Decide(cs[1]).0 then 502 else 504, Start(ds))
  {
    NthTurnNext(cs[0], cs[1], left + 1, rounds);
    AnyRound(cs);
    ds := RetryAfter(cs);
    if Decide(cs[0]).0 || !Decide(cs[1]).0 {
      left' := left - 1;
      OneTakeLess(cs[3], left');
    } else {
      left' := left;
    }
  }

  lemma RoundThenHalt(cs: seq<Ctx>, ds: seq<Ctx>, rounds: nat)
    requires ValidControl(BACKWARD_BRANCH, Start(cs)) && ValidControl(BACKWARD_BRANCH, Start(ds))
    requires ds[0] == Decide(cs[0]).1 && ds[1] == if Decide(cs[0]).0 then cs[1] else Decide(cs[1]).1
    requires Reach(BACKWARD_BRANCH, Start(cs), if Decide(cs[0]).0 || Decide(cs[1]).0 then 502 else 504, Start(ds))
    requires HaltsIn(BACKWARD_BRANCH, Start(ds), RetryTime(ds[0], ds[1], rounds))
    ensures HaltsIn(BACKWARD_BRANCH, Start(cs), RetryTime(cs[0], cs[1], rounds + 1))
  {
    TurnsNext(cs[0], cs[1], rounds);
    var cost := if Decide(cs[0]).0 || Decide(cs[1]).0 then 502 else 504;
    ThenHalt(BACKWARD_BRANCH, Start(cs), cost, Start(ds),
             RetryTime(ds[0], ds[1], rounds), RetryTime(cs[0], cs[1], rounds + 1));
  }

  lemma ThenHalt(p: Program, a: Control, cost: nat, b: Control, rest: nat, time: nat)
    requires ValidProgram(p) && Reach(p, a, cost, b) && HaltsIn(p, b, rest) && time == cost + rest
    ensures HaltsIn(p, a, time)
  {
    ReachThenHalt(p, a, cost, b, rest);
  }

  lemma {:induction false} RetryRounds(cs: seq<Ctx>, left: nat, rounds: nat)
    requires RetryReady(cs, left, rounds)
    ensures HaltsIn(BACKWARD_BRANCH, Start(cs), RetryTime(cs[0], cs[1], rounds))
    decreases rounds
  {
    if rounds == 1 {
      RetryLast(cs, left);
    } else {
      var ds, left' := RetryNext(cs, left, rounds);
      RetryRounds(ds, left', rounds - 1);
      RoundThenHalt(cs, ds, rounds - 1);
    }
  }

  // ---------- The same in coin tosses ----------

  lemma {:induction false} TruesOfAppend(a: seq<bool>, b: seq<bool>, n: nat)
    requires n <= |b|
    ensures Trues(a + b, |a| + n) == Trues(a, |a|) + Trues(b, n)
  {
    if n == 0 {
      TruesOfPrefix(a + b, a, |a|);
    } else {
      TruesOfAppend(a, b, n - 1);
    }
  }

  lemma {:induction false} TruesOfRepeat(v: bool, n: nat)
    ensures |Repeat(v, n)| == n && Trues(Repeat(v, n), n) == if v then n else 0
  {
    if n > 0 {
      TruesOfRepeat(v, n - 1);
      TruesOfPrefix(Repeat(v, n), Repeat(v, n - 1), n - 1);
    }
  }

  /** How many of the first `n` runs are runs of true tosses. */
  function TrueRuns(v: bool, n: nat): nat {
    if v then (n + 1) / 2 else n / 2
  }

  lemma NextTrueRun(v: bool, n: nat)
    ensures TrueRuns(v, n + 1) == TrueRuns(v, n) + (if RunValue(v, n) then 1 else 0)
  {
  }

  lemma TruesOfRun(before: seq<bool>, v: bool, n: nat)
    ensures var e := before + Repeat(v, n); Trues(e, |e|) == Trues(before, |before|) + (if v then n else 0)
  {
    TruesOfRepeat(v, n);
    TruesOfAppend(before, Repeat(v, n), n);
  }

  lemma {:induction false} TruesOfExpand(runs: seq<int>, n: nat, v: bool)
    requires n <= |runs| && AllPositive(runs, n)
    ensures var e := Expand(runs, n, v); Trues(e, |e|) >= TrueRuns(v, n)
  {
    if n > 0 {
      TruesOfExpand(runs, n - 1, v);
      NextTrueRun(v, n - 1);
      TruesOfRun(Expand(runs, n - 1, v), RunValue(v, n - 1), runs[n - 1]);
    }
  }

  lemma ManyTakes(c: Ctx, draws: seq<bool>)
    requires CodesDraws(c, draws)
    ensures ValidCtx(c) && Takes(c, Sum(c.brings)) >= MAXBRINGS / 2
  {
    TruesOfExpand(c.brings, MAXBRINGS, c.bvalue);
    TakesAreDraws(c, draws, Sum(c.brings));
    TruesOfPrefix(draws, draws[..Sum(c.brings)], Sum(c.brings));
  }

  lemma TurnsGrow(c: Ctx, d: Ctx, n: nat)
    requires ValidCtx(c) && ValidCtx(d)
    ensures Turns(c, d, n) <= Turns(c, d, n + 1) <= Turns(c, d, n) + 1
  {
    OneMoreTake(c, n);
    OneMoreTake(d, Refusals(c, n));
  }

  lemma {:induction false} SomeNthTurn(c: Ctx, d: Ctx, count: nat, m: nat) returns (rounds: nat)
    requires ValidCtx(c) && ValidCtx(d) && 0 < count <= Turns(c, d, m)
    ensures rounds <= m && NthTurn(c, d, count, rounds)
    decreases m
  {
    TurnsGrow(c, d, if m > 0 then m - 1 else 0);
    if m > 0 && Turns(c, d, m - 1) >= count {
      rounds := SomeNthTurn(c, d, count, m - 1);
    } else {
      rounds := m;
    }
  }

  /** A GOTO takes its branch FOREVER times, refuses it as often, and so on. */
  const CYCLE := 2 * FOREVER

  /** How often it does not take its branch when it is asked `n` times. */
  function GotoRefusals(n: nat): nat {
    n / CYCLE * FOREVER + (if n % CYCLE <= FOREVER then 0 else n % CYCLE - FOREVER)
  }

  /** Its context when it is at question `m` of its cycle. */
  function GotoAt(m: nat): Ctx {
    if m < FOREVER then GotoCtx().(bcount := m) else GotoCtx().(bcount := m - FOREVER, bvalue := false)
  }

  lemma CycleNext(n: nat)
    ensures (n + 1) % CYCLE == if n % CYCLE + 1 == CYCLE then 0 else n % CYCLE + 1
    ensures (n + 1) / CYCLE == if n % CYCLE + 1 == CYCLE then n / CYCLE + 1 else n / CYCLE
  {
  }

  lemma GotoNext(m: nat)
    requires m < CYCLE
    ensures ValidCtx(GotoAt(m))
    ensures Decide(GotoAt(m)) == (m < FOREVER, GotoAt(if m + 1 == CYCLE then 0 else m + 1))
  {
  }

  lemma RefusalsNext(n: nat)
    ensures GotoRefusals(n + 1) == GotoRefusals(n) + (if n % CYCLE < FOREVER then 0 else 1)
  {
    CycleNext(n);
  }

  lemma {:induction false} GotoIsAt(n: nat)
    ensures ValidCtx(GotoCtx()) && After(GotoCtx(), n) == GotoAt(n % CYCLE)
  {
    if n > 0 {
      GotoIsAt(n - 1);
      GotoNext((n - 1) % CYCLE);
      CycleNext(n - 1);
    }
  }

  /** One more question. */
  lemma GotoAsked(n: nat)
    ensures Refusals(GotoCtx(), n + 1) == Refusals(GotoCtx(), n) + (if n % CYCLE < FOREVER then 0 else 1)
  {
    GotoIsAt(n);
    GotoNext(n % CYCLE);
    OneMoreTake(GotoCtx(), n);
  }

  /** It takes its branch 0x7fffffff times, refuses it as often, and so on. */
  lemma {:induction false} GotoRefuses(n: nat)
    ensures Refusals(GotoCtx(), n) == GotoRefusals(n)
  {
    if n > 0 {
      GotoRefuses(n - 1);
      RefusalsNext(n - 1);
      GotoAsked(n - 1);
    }
  }

  /** It never refuses up to the end of its first run. */
  lemma GotoHolds(n: nat)
    ensures Refusals(GotoCtx(), n) == 0 <==> n <= 0x7fff_ffff
  {
    GotoRefuses(n);
  }

  /** How many turns of the loop branch come in `n` tosses. */
  function TossTurns(draws: seq<bool>, n: nat): nat
    requires n <= |draws|
  {
    Trues(draws, n) + GotoRefusals(n - Trues(draws, n))
  }

  /** 502 statements for each toss, and 2 for each time the GOTO did not take. */
  function BackwardTime(draws: seq<bool>, n: nat): nat
    requires n <= |draws|
  {
    502 * n + 2 * GotoRefusals(n - Trues(draws, n))
  }

  lemma TurnsOfTosses(c: Ctx, draws: seq<bool>, n: nat)
    requires CodesDraws(c, draws) && n <= Sum(c.brings)
    ensures ValidCtx(c) && n <= |draws| && TossTurns(draws, n) == Turns(c, GotoCtx(), n)
    ensures BackwardTime(draws, n) == RetryTime(c, GotoCtx(), n)
  {
    TakesAreDraws(c, draws, n);
    GotoRefuses(n - Trues(draws, n));
  }

  /** Toss `rounds` brings turn number `count` of the loop branch. */
  ghost predicate TurnsAt(draws: seq<bool>, count: int, rounds: nat) {
    0 < rounds <= |draws| && TossTurns(draws, rounds - 1) + 1 == TossTurns(draws, rounds) == count
  }

  lemma TurnOfToss(c: Ctx, draws: seq<bool>, count: nat, rounds: nat)
    requires CodesDraws(c, draws) && 0 < rounds <= Sum(c.brings) && ValidCtx(c)
    ensures rounds <= |draws| && (TurnsAt(draws, count, rounds) <==> NthTurn(c, GotoCtx(), count, rounds))
    ensures BackwardTime(draws, rounds) == RetryTime(c, GotoCtx(), rounds)
  {
    TurnsOfTosses(c, draws, rounds - 1);
    TurnsOfTosses(c, draws, rounds);
  }

  lemma BackwardIsValid()
    ensures ValidProgram(BACKWARD_BRANCH)
  {
  }

  lemma BackwardStart(cs: seq<Ctx>)
    requires Loaded(BACKWARD_BRANCH, cs)
    ensures ValidControl(BACKWARD_BRANCH, Start(cs))
  {
    BackwardIsValid();
    LoadedIsValid(BACKWARD_BRANCH, cs);
  }

  lemma BackwardLoaded(cs: seq<Ctx>)
    requires Loaded(BACKWARD_BRANCH, cs)
    ensures Admissible(BACKWARD_BRANCH.branches[1], cs[1]) && Admissible(BACKWARD_BRANCH.branches[3], cs[3])
  {
  }

  /** The contexts of the GOTO and the loop as they are loaded. */
  lemma BackwardContexts(cs: seq<Ctx>)
    requires Loaded(BACKWARD_BRANCH, cs)
    ensures ValidControl(BACKWARD_BRANCH, Start(cs)) && cs[1] == GotoCtx()
    ensures 10 <= cs[3].brings[0] < 20 && TakesLeft(cs[3], cs[3].brings[0])
  {
    BackwardStart(cs);
    BackwardLoaded(cs);
    BackwardLoop(cs[3]);
    BackwardGoto(cs[1]);
  }

  lemma BackwardLoop(c: Ctx)
    requires Admissible(BACKWARD_BRANCH.branches[3], c)
    ensures ValidCtx(c) && 10 <= c.brings[0] < 20 && TakesLeft(c, c.brings[0])
  {
    LoopIsCounter(BACKWARD_BRANCH.branches[3], c);
  }

  lemma BackwardGoto(c: Ctx)
    requires Admissible(BACKWARD_BRANCH.branches[1], c)
    ensures c == GotoCtx()
  {
  }

  lemma BackwardHalts(cs: seq<Ctx>, left: nat, rounds: nat, time: nat)
    requires ValidControl(BACKWARD_BRANCH, Start(cs)) && TakesLeft(cs[3], left)
    requires NthTurn(cs[0], cs[1], left + 1, rounds) && time == RetryTime(cs[0], cs[1], rounds)
    ensures HaltsIn(BACKWARD_BRANCH, Start(cs), time)
  {
    RetryRounds(cs, left, rounds);
  }

  /**
   With a loop count of `n` the program halts in the round of the toss that brings turn `n + 1` of the
   loop branch, for all draws.
   */
  lemma BackwardBranchTime(cs: seq<Ctx>, draws: seq<bool>, rounds: nat)
    requires Loaded(BACKWARD_BRANCH, cs) && CodesDraws(cs[0], draws)
    requires rounds <= Sum(cs[0].brings) && TurnsAt(draws, cs[3].brings[0] + 1, rounds)
    ensures ValidProgram(BACKWARD_BRANCH) && ValidControl(BACKWARD_BRANCH, Start(cs))
    ensures HaltsIn(BACKWARD_BRANCH, Start(cs), BackwardTime(draws, rounds))
  {
    BackwardIsValid();
    BackwardContexts(cs);
    TurnOfToss(cs[0], draws, cs[3].brings[0] + 1, rounds);
    BackwardHalts(cs, cs[3].brings[0], rounds, BackwardTime(draws, rounds));
  }

  /** There is such a toss among those that the IF replays. */
  lemma BackwardBranchRounds(cs: seq<Ctx>, draws: seq<bool>) returns (rounds: nat)
    requires Loaded(BACKWARD_BRANCH, cs) && CodesDraws(cs[0], draws)
    ensures rounds <= Sum(cs[0].brings) && 10 <= cs[3].brings[0] < 20
    ensures TurnsAt(draws, cs[3].brings[0] + 1, rounds)
  {
    BackwardContexts(cs);
    ManyTakes(cs[0], draws);
    rounds := SomeNthTurn(cs[0], GotoCtx(), cs[3].brings[0] + 1, Sum(cs[0].brings));
    TurnOfToss(cs[0], draws, cs[3].brings[0] + 1, rounds);
  }

  lemma TossTurnsOfTrues(draws: seq<bool>, n: nat, run: nat)
    requires n <= |draws| && n - Trues(draws, n) <= run && run == FOREVER
    ensures TossTurns(draws, n) == Trues(draws, n) && BackwardTime(draws, n) == 502 * n
  {
    GotoRefuses(n - Trues(draws, n));
    GotoHolds(n - Trues(draws, n));
  }

  /** While the run of the GOTO lasts, the turns are the true tosses, and each toss takes 502 statements. */
  lemma BackwardBranchDraws(draws: seq<bool>, count: nat, rounds: nat)
    requires 0 < rounds <= |draws| && rounds - Trues(draws, rounds) <= FOREVER
    ensures TurnsAt(draws, count, rounds) <==> Trues(draws, rounds - 1) + 1 == Trues(draws, rounds) == count
    ensures BackwardTime(draws, rounds) == 502 * rounds
  {
    TossTurnsOfTrues(draws, rounds - 1, FOREVER);
    TossTurnsOfTrues(draws, rounds, FOREVER);
  }

  lemma BackwardBranchHalts(cs: seq<Ctx>, draws: seq<bool>) returns (time: nat)
    requires ValidProgram(BACKWARD_BRANCH) && Loaded(BACKWARD_BRANCH, cs) && CodesDraws(cs[0], draws)
    ensures HaltsIn(BACKWARD_BRANCH, Start(cs), time)
  {
    var rounds := BackwardBranchRounds(cs, draws);
    BackwardBranchTime(cs, draws, rounds);
    time := BackwardTime(draws, rounds);
  }

  lemma SomeTosses(c: Ctx) returns (draws: seq<bool>)
    requires Admissible(BACKWARD_BRANCH.branches[0], c)
    ensures CodesDraws(c, draws)
  {
    draws :| CodesDraws(c, draws);
  }

  /** Every job halts, whatever was drawn for it. */
  lemma EveryProgramHalts(kind: nat, cs: seq<Ctx>) returns (time: nat)
    requires kind < PROGRAMCOUNT && ValidProgram(PROGRAMS[kind]) && Loaded(PROGRAMS[kind], cs)
    ensures HaltsIn(PROGRAMS[kind], Start(cs), time)
  {
    if kind == 0 {
      LoopWithInnerBranchTime(cs);
      time := BranchyTime(cs[0], cs[2].brings[0] + 1);
    } else if kind == 1 {
      OneLoopTime(cs);
      time := 1130 * (cs[0].brings[0] + 1);
    } else if kind == 2 {
      DoublyNestedLoopTime(cs);
      time := 1684 * (cs[1].brings[0] + 1) + 517 * InnerTakes(cs[0].brings, cs[1].brings[0] + 1);
    } else if kind == 3 {
      LinearTime(cs);
      time := 1912;
    } else {
      var draws := SomeTosses(cs[0]);
      time := BackwardBranchHalts(cs, draws);
    }
  }
}
