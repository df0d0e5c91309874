/** What the draws make every job compute, in numbers, and the compute score that this adds up to. */
module DrawnTimes {
  import opened Machine
  import opened Sums
  import opened Programs
  import opened BranchEngine
  import opened BranchContexts
  import opened BranchingTime
  import opened RunningTime
  import opened Simulation
  import opened Transparency
  import opened Processes
  import opened Termination
  import opened Simulators
  import opened MainLoop

  /** Job `k` of the queue that the draws generate has this program. */
  ghost predicate IsJob(jobs: seq<Job>, shuffle: seq<nat>, draws: seq<seq<Draws>>, k: nat, kind: nat) {
    GeneratedBy(jobs, shuffle, draws) && k < QUEUESIZE && kind < PROGRAMCOUNT && Shuffled(shuffle, PASSES)[k] == kind
  }

  lemma JobOfKind(jobs: seq<Job>, shuffle: seq<nat>, draws: seq<seq<Draws>>, k: nat, kind: nat)
    requires IsJob(jobs, shuffle, draws, k, kind)
    ensures |jobs| == |draws| == QUEUESIZE && IsLoaded(jobs[k], kind, draws[k])
  {
  }

  lemma JobFinishes(jobs: seq<Job>, shuffle: seq<nat>, draws: seq<seq<Draws>>, s: State, k: nat, kind: nat)
    requires IsJob(jobs, shuffle, draws, k, kind) && Completed(jobs, s)
    ensures Finished(jobs, s, k, PROGRAMS[kind])
  {
    JobOfKind(jobs, shuffle, draws, k, kind);
  }

  /** Branch `b` of a loaded job of program `p` has the context that its own draws give it. */
  lemma LoopOfJob(j: Job, kind: nat, draws: seq<Draws>, b: nat)
    requires IsLoaded(j, kind, draws) && b < |j.program.branches| && j.program.branches[b].btype == FOR
    ensures |draws| > b && |draws[b].numbers| >= MAXBRINGS / 2 && |j.control.ctxs| > b
    ensures j.control.ctxs[b] == LoopCtx(j.program.branches[b], draws[b].numbers)
  {
    assert InitializedBy(j.program.branches[b], draws[b], j.control.ctxs[b]);
  }

  /** The tosses of a loaded job's IF are coded in its context, and there are enough of them. */
  lemma TossesOfJob(j: Job, kind: nat, draws: seq<Draws>, b: nat)
    requires IsLoaded(j, kind, draws) && b < |j.program.branches| && j.program.branches[b].btype == IF
    ensures |draws| > b && |draws[b].coins| > MAXBRINGS && |j.control.ctxs| > b
    ensures CodesDraws(j.control.ctxs[b], draws[b].coins)
  {
    var c := j.control.ctxs[b];
    assert InitializedBy(j.program.branches[b], draws[b], c);
    ExpandLength(c.brings, MAXBRINGS, c.bvalue);
  }

  lemma BranchyJob(j: Job, draws: seq<Draws>)
    requires IsLoaded(j, 0, draws)
    ensures |draws| > 2 && |draws[2].numbers| > 0 && |draws[0].coins| > MAXBRINGS && |j.control.ctxs| == MAXBRANCHES
    ensures var cs := j.control.ctxs;
      CodesDraws(cs[0], draws[0].coins) && |cs[2].brings| > 0 && cs[2].brings[0] == draws[2].numbers[0] % 20 + 10
  {
    LoopOfJob(j, 0, draws, 2);
    LoopCells(LOOP_WITH_INNER_BRANCH.branches[2], draws[2].numbers, 0);
    TossesOfJob(j, 0, draws, 0);
  }

  lemma TossTimeIs(c: Ctx, coins: seq<bool>, count: int, rounds: nat)
    requires CodesDraws(c, coins) && rounds == count + 1 <= MAXBRINGS
    ensures ValidCtx(c) && rounds <= |coins| && BranchyTime(c, rounds) == TossTime(coins, rounds)
  {
    BranchyTimeOfTosses(c, coins, rounds);
  }

  /** 633 ticks for each true toss and 1403 for each false one, and the exit. */
  lemma ComputeOfBranchy(jobs: seq<Job>, shuffle: seq<nat>, draws: seq<seq<Draws>>, s: State, k: nat)
    requires IsJob(jobs, shuffle, draws, k, 0) && Completed(jobs, s)
    ensures |draws[k]| > 2 && |draws[k][2].numbers| > 0 && |draws[k][0].coins| > MAXBRINGS && k < |s.jobs|
    ensures s.jobs[k].compute == TossTime(draws[k][0].coins, draws[k][2].numbers[0] % 20 + 11) + 1
  {
    JobOfKind(jobs, shuffle, draws, k, 0);
    JobFinishes(jobs, shuffle, draws, s, k, 0);
    BranchyJob(jobs[k], draws[k]);
    ExactComputeBranchy(jobs, s, k);
    var cs := jobs[k].control.ctxs;
    TossTimeIs(cs[0], draws[k][0].coins, cs[2].brings[0], draws[k][2].numbers[0] % 20 + 11);
  }

  lemma ComputeOfOneLoop(jobs: seq<Job>, shuffle: seq<nat>, draws: seq<seq<Draws>>, s: State, k: nat)
    requires IsJob(jobs, shuffle, draws, k, 1) && Completed(jobs, s)
    ensures |draws[k]| > 0 && |draws[k][0].numbers| > 0 && k < |s.jobs|
    ensures s.jobs[k].compute == 1130 * (draws[k][0].numbers[0] % 30 + 21) + 1
  {
    JobOfKind(jobs, shuffle, draws, k, 1);
    JobFinishes(jobs, shuffle, draws, s, k, 1);
    LoopOfJob(jobs[k], 1, draws[k], 0);
    LoopCells(ONE_LOOP.branches[0], draws[k][0].numbers, 0);
    ExactComputeOneLoop(jobs, s, k);
  }

  /** The counts of the inner loop in the first rounds of the outer one. */
  function InnerCounts(numbers: seq<nat>, rounds: nat): nat
    requires rounds <= |numbers|
  {
    if rounds == 0 then 0 else InnerCounts(numbers, rounds - 1) + numbers[rounds - 1] % 10 + 10
  }

  lemma {:induction false} InnerTakesAreDrawn(numbers: seq<nat>, rounds: nat)
    requires |numbers| >= MAXBRINGS / 2 && rounds <= MAXBRINGS / 2
    ensures InnerTakes(LoopCtx(DOUBLY_NESTED_LOOP.branches[0], numbers).brings, rounds) == InnerCounts(numbers, rounds)
  {
    if rounds > 0 {
      InnerTakesAreDrawn(numbers, rounds - 1);
      LoopCells(DOUBLY_NESTED_LOOP.branches[0], numbers, rounds - 1);
    }
  }

  lemma NestedJob(j: Job, draws: seq<Draws>)
    requires IsLoaded(j, 2, draws)
    ensures |draws| > 1 && |draws[0].numbers| >= MAXBRINGS / 2 && |draws[1].numbers| > 0
    ensures |j.control.ctxs| == MAXBRANCHES
    ensures var cs, rounds := j.control.ctxs, draws[1].numbers[0] % 10 + 11;
      && |cs[0].brings| == MAXBRINGS && |cs[1].brings| > 0 && cs[1].brings[0] + 1 == rounds
      && InnerTakes(cs[0].brings, rounds) == InnerCounts(draws[0].numbers, rounds)
  {
    LoopOfJob(j, 2, draws, 0);
    LoopOfJob(j, 2, draws, 1);
    LoopCells(DOUBLY_NESTED_LOOP.branches[1], draws[1].numbers, 0);
    InnerTakesAreDrawn(draws[0].numbers, draws[1].numbers[0] % 10 + 11);
  }

  /** Each round of the outer loop draws a new count for the inner one. */
  lemma ComputeOfNested(jobs: seq<Job>, shuffle: seq<nat>, draws: seq<seq<Draws>>, s: State, k: nat)
    requires IsJob(jobs, shuffle, draws, k, 2) && Completed(jobs, s)
    ensures |draws[k]| > 1 && |draws[k][0].numbers| >= MAXBRINGS / 2 && |draws[k][1].numbers| > 0 && k < |s.jobs|
    ensures var rounds := draws[k][1].numbers[0] % 10 + 11;
      s.jobs[k].compute == 1684 * rounds + 517 * InnerCounts(draws[k][0].numbers, rounds) + 1
  {
    JobOfKind(jobs, shuffle, draws, k, 2);
    JobFinishes(jobs, shuffle, draws, s, k, 2);
    NestedJob(jobs[k], draws[k]);
    ExactComputeNested(jobs, s, k);
  }

  lemma ComputeOfLinear(jobs: seq<Job>, shuffle: seq<nat>, draws: seq<seq<Draws>>, s: State, k: nat)
    requires IsJob(jobs, shuffle, draws, k, 3) && Completed(jobs, s)
    ensures k < |s.jobs| && s.jobs[k].compute == 1913
  {
    JobFinishes(jobs, shuffle, draws, s, k, 3);
    ExactComputeLinear(jobs, s, k);
  }

  /** How many turns of the loop each number of tosses brings. */
  function TurnsBy(coins: seq<bool>): nat -> nat {
    (n: nat) => if n <= |coins| then TossTurns(coins, n) else 0
  }

  /** The first number from `n` on that is `end` or has at least `count` turns. */
  function FirstWith(turns: nat -> nat, count: nat, n: nat, end: nat): (r: nat)
    requires n <= end
    ensures n <= r <= end && (r < end ==> turns(r) >= count)
    ensures forall m: nat | n <= m < r :: turns(m) < count
    decreases end - n
  {
    if n == end || turns(n) >= count then n else FirstWith(turns, count, n + 1, end)
  }

  ghost predicate Rises(turns: nat -> nat, end: nat) {
    forall n: nat | n < end :: turns(n) <= turns(n + 1)
  }

  lemma {:induction false} RisesOn(turns: nat -> nat, m: nat, n: nat, end: nat)
    requires Rises(turns, end) && m <= n <= end
    ensures turns(m) <= turns(n)
  {
    if m < n {
      RisesOn(turns, m, n - 1, end);
    }
  }

  lemma FirstWithIs(turns: nat -> nat, count: nat, rounds: nat, end: nat)
    requires Rises(turns, end) && 0 < rounds <= end && turns(rounds - 1) < count == turns(rounds)
    ensures FirstWith(turns, count, 0, end) == rounds
  {
    var r := FirstWith(turns, count, 0, end);
    if r < rounds {
      RisesOn(turns, r, rounds - 1, end);
    }
  }

  lemma TurnsRise(coins: seq<bool>)
    ensures Rises(TurnsBy(coins), |coins|)
  {
    forall n: nat | n < |coins|
      ensures TurnsBy(coins)(n) <= TurnsBy(coins)(n + 1)
    {
      RefusalsNext(n - Trues(coins, n));
    }
  }

  /** The toss that brings turn number `count` of the loop. */
  function LastToss(coins: seq<bool>, count: nat): (r: nat)
    ensures r <= |coins|
  {
    FirstWith(TurnsBy(coins), count, 0, |coins|)
  }

  lemma LastTossAt(coins: seq<bool>, count: nat, rounds: nat, turns: nat -> nat)
    requires turns == TurnsBy(coins) && 0 < rounds <= |coins| && turns(rounds - 1) < count == turns(rounds)
    ensures LastToss(coins, count) == rounds
  {
    TurnsRise(coins);
    FirstWithIs(turns, count, rounds, |coins|);
  }

  lemma LastTossIs(coins: seq<bool>, count: nat, rounds: nat)
    requires TurnsAt(coins, count, rounds)
    ensures LastToss(coins, count) == rounds
  {
    LastTossAt(coins, count, rounds, TurnsBy(coins));
  }

  lemma BackwardJob(j: Job, draws: seq<Draws>)
    requires IsLoaded(j, 4, draws)
    ensures |draws| > 3 && |draws[3].numbers| > 0 && |j.control.ctxs| == MAXBRANCHES
    ensures var cs := j.control.ctxs;
      CodesDraws(cs[0], draws[0].coins) && |cs[3].brings| > 0 && cs[3].brings[0] == draws[3].numbers[0] % 10 + 10
  {
    LoopOfJob(j, 4, draws, 3);
    LoopCells(BACKWARD_BRANCH.branches[3], draws[3].numbers, 0);
    TossesOfJob(j, 4, draws, 0);
  }

  lemma BackwardToss(cs: seq<Ctx>, coins: seq<bool>, count: nat) returns (rounds: nat)
    requires Loaded(BACKWARD_BRANCH, cs) && CodesDraws(cs[0], coins)
    requires |cs[3].brings| > 0 && count == cs[3].brings[0] + 1
    ensures rounds == LastToss(coins, count) <= Sum(cs[0].brings) && TurnsAt(coins, cs[3].brings[0] + 1, rounds)
  {
    rounds := BackwardBranchRounds(cs, coins);
    LastTossIs(coins, count, rounds);
  }

  /** 502 ticks for each toss up to the one that brings the last turn of the loop, 2 for each refusal, and the exit. */
  function BackwardCompute(coins: seq<bool>, number: nat): nat {
    BackwardTime(coins, LastToss(coins, number % 10 + 11)) + 1
  }

  lemma BackwardFinished(jobs: seq<Job>, s: State, k: nat, coins: seq<bool>, number: nat)
    requires Finished(jobs, s, k, BACKWARD_BRANCH) && CodesDraws(jobs[k].control.ctxs[0], coins)
    requires |jobs[k].control.ctxs[3].brings| > 0 && jobs[k].control.ctxs[3].brings[0] == number % 10 + 10
    ensures k < |s.jobs| && s.jobs[k].compute == BackwardCompute(coins, number)
  {
    var count := number % 10 + 11;
    var rounds := BackwardToss(jobs[k].control.ctxs, coins, count);
    ExactComputeBackward(jobs, s, k, coins, rounds);
  }

  lemma ComputeOfBackward(jobs: seq<Job>, shuffle: seq<nat>, draws: seq<seq<Draws>>, s: State, k: nat)
    requires IsJob(jobs, shuffle, draws, k, 4) && Completed(jobs, s)
    ensures |draws[k]| > 3 && |draws[k][3].numbers| > 0 && k < |s.jobs|
    ensures s.jobs[k].compute == BackwardCompute(draws[k][0].coins, draws[k][3].numbers[0])
  {
    JobOfKind(jobs, shuffle, draws, k, 4);
    JobFinishes(jobs, shuffle, draws, s, k, 4);
    BackwardJob(jobs[k], draws[k]);
    BackwardFinished(jobs, s, k, draws[k][0].coins, draws[k][3].numbers[0]);
  }

  // ---------- The score ----------

  /** Draws for each branch of the program, and a hundred tosses for an IF. */
  ghost predicate DrawsFor(kind: nat, d: seq<Draws>) {
    && |d| > 3
    && (kind in {0, 4} ==> |d[0].coins| > MAXBRINGS)
    && (kind == 0 ==> |d[2].numbers| > 0)
    && (kind == 1 ==> |d[0].numbers| > 0)
    && (kind == 2 ==> |d[0].numbers| >= MAXBRINGS / 2 && |d[1].numbers| > 0)
    && (kind == 4 ==> |d[3].numbers| > 0)
  }

  /** What a job of a kind computes, for its draws. */
  function DrawnCompute(kind: nat, d: seq<Draws>): nat
    requires kind < PROGRAMCOUNT && DrawsFor(kind, d)
  {
    if kind == 0 then TossTime(d[0].coins, d[2].numbers[0] % 20 + 11) + 1
    else if kind == 1 then 1130 * (d[0].numbers[0] % 30 + 21) + 1
    else if kind == 2 then
      var rounds := d[1].numbers[0] % 10 + 11;
      1684 * rounds + 517 * InnerCounts(d[0].numbers, rounds) + 1
    else if kind == 3 then 1913
    else BackwardCompute(d[0].coins, d[3].numbers[0])
  }

  lemma PlentyIsEnough(kind: nat, d: seq<Draws>)
    requires |d| == MAXBRANCHES && forall b | 0 <= b < |d| :: Plenty(d[b])
    ensures DrawsFor(kind, d)
  {
    AlternationsBound(d[0].coins, |d[0].coins|);
  }

  lemma {:induction false} AlternationsBound(coins: seq<bool>, n: nat)
    requires n <= |coins|
    ensures Alternations(coins, n) < n || n == 0
  {
    if n >= 2 {
      AlternationsBound(coins, n - 1);
    }
  }

  lemma PlentyForAll(shuffle: seq<nat>, draws: seq<seq<Draws>>)
    requires |shuffle| == PASSES * QUEUESIZE && Plentiful(draws)
    ensures forall k | 0 <= k < QUEUESIZE ::
      Shuffled(shuffle, PASSES)[k] < PROGRAMCOUNT && DrawsFor(Shuffled(shuffle, PASSES)[k], draws[k])
  {
    ShuffledIsPermutation(shuffle, PASSES);
    KindsInRange(Shuffled(shuffle, PASSES));
    forall k | 0 <= k < QUEUESIZE
      ensures DrawsFor(Shuffled(shuffle, PASSES)[k], draws[k])
    {
      PlentyIsEnough(Shuffled(shuffle, PASSES)[k], draws[k]);
    }
  }

  /** What every job of the queue computes. */
  ghost function DrawnComputes(shuffle: seq<nat>, draws: seq<seq<Draws>>): (r: seq<int>)
    requires |shuffle| == PASSES * QUEUESIZE && Plentiful(draws)
    ensures |r| == QUEUESIZE
    ensures forall k | 0 <= k < QUEUESIZE ::
      && Shuffled(shuffle, PASSES)[k] < PROGRAMCOUNT && DrawsFor(Shuffled(shuffle, PASSES)[k], draws[k])
      && r[k] == DrawnCompute(Shuffled(shuffle, PASSES)[k], draws[k])
  {
    PlentyForAll(shuffle, draws);
    seq(QUEUESIZE, k requires 0 <= k < QUEUESIZE => DrawnCompute(Shuffled(shuffle, PASSES)[k], draws[k]))
  }

  lemma ComputeIsDrawn(jobs: seq<Job>, shuffle: seq<nat>, draws: seq<seq<Draws>>, s: State, k: nat, kind: nat)
    requires IsJob(jobs, shuffle, draws, k, kind) && Completed(jobs, s)
    ensures k < |s.jobs| && (DrawsFor(kind, draws[k]) ==> s.jobs[k].compute == DrawnCompute(kind, draws[k]))
  {
    if kind == 0 {
      ComputeOfBranchy(jobs, shuffle, draws, s, k);
    } else if kind == 1 {
      ComputeOfOneLoop(jobs, shuffle, draws, s, k);
    } else if kind == 2 {
      ComputeOfNested(jobs, shuffle, draws, s, k);
    } else if kind == 3 {
      ComputeOfLinear(jobs, shuffle, draws, s, k);
    } else {
      ComputeOfBackward(jobs, shuffle, draws, s, k);
    }
  }

  /** Whatever the pager and the number of slots: the score of a completed simulation, in the draws. */
  lemma ScoreIsDrawn(jobs: seq<Job>, shuffle: seq<nat>, draws: seq<seq<Draws>>, s: State)
    requires GeneratedBy(jobs, shuffle, draws) && Plentiful(draws) && Completed(jobs, s)
    ensures Compute(s) == Sum(DrawnComputes(shuffle, draws))
  {
    assert |s.jobs| == QUEUESIZE;
    forall k | 0 <= k < QUEUESIZE
      ensures Computes(s.jobs)[k] == DrawnComputes(shuffle, draws)[k]
    {
      ComputeIsDrawn(jobs, shuffle, draws, s, k, Shuffled(shuffle, PASSES)[k]);
    }
    assert Computes(s.jobs) == DrawnComputes(shuffle, draws);
  }
}
