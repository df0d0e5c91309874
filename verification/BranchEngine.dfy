/**
 The branching engine: a run-length coded stream of branch decisions.
 `brings` holds the lengths of alternating runs of takes and non-takes.
 */
module BranchEngine {
  import opened Machine
  import opened Programs
  import opened Sums

  datatype Ctx = Ctx(boffset: int, bsize: int, bvalue: bool, bcount: int, brings: seq<int>)

  ghost predicate ValidCtx(c: Ctx) {
    && |c.brings| == MAXBRINGS
    && 0 <= c.boffset < c.bsize <= MAXBRINGS
  }

  /** The next cell of a table of `size` runs, wrapping at its end. */
  function Advance(offset: int, size: int): (r: int)
    requires 0 <= offset < size
    ensures 0 <= r < size
  {
    if offset + 1 == size then 0 else offset + 1
  }

  lemma AdvanceIsModular(offset: int, size: int)
    requires 0 <= offset < size
    ensures Advance(offset, size) == (offset + 1) % size
  {
  }

  /** One decision and the context it leaves. */
  function Decide(c: Ctx): (r: (bool, Ctx))
    requires ValidCtx(c)
    ensures ValidCtx(r.1)
  {
    if c.bcount + 1 >= c.brings[c.boffset]
    then (c.bvalue, c.(boffset := Advance(c.boffset, c.bsize), bcount := 0, bvalue := !c.bvalue))
    else (c.bvalue, c.(bcount := c.bcount + 1))
  }

  /** The context after `n` decisions. */
  function After(c: Ctx, n: nat): (r: Ctx)
    requires ValidCtx(c)
    ensures ValidCtx(r)
  {
    if n == 0 then c else Decide(After(c, n - 1)).1
  }

  /** The first `n` decisions. */
  function Outputs(c: Ctx, n: nat): (r: seq<bool>)
    requires ValidCtx(c)
    ensures |r| == n
  {
    if n == 0 then [] else Outputs(c, n - 1) + [Decide(After(c, n - 1)).0]
  }

  /** `n` copies of `v`. */
  function Repeat(v: bool, n: int): (r: seq<bool>)
    ensures n >= 0 ==> |r| == n
    ensures forall i | 0 <= i < |r| :: r[i] == v
  {
    if n <= 0 then [] else Repeat(v, n - 1) + [v]
  }

  /** The value of run number `i` when run 0 has value `v`. */
  predicate RunValue(v: bool, i: nat) {
    if i % 2 == 0 then v else !v
  }

  /** Run-length decoding of the first `n` runs: alternating value, the first of value `v`. */
  function Expand(runs: seq<int>, n: nat, v: bool): seq<bool>
    requires n <= |runs|
  {
    if n == 0 then [] else Expand(runs, n - 1, v) + Repeat(RunValue(v, n - 1), runs[n - 1])
  }

  ghost predicate AllPositive(runs: seq<int>, n: nat)
    requires n <= |runs|
  {
    forall i | 0 <= i < n :: runs[i] >= 1
  }

  lemma {:induction false} ExpandLength(runs: seq<int>, n: nat, v: bool)
    requires n <= |runs| && AllPositive(runs, n)
    ensures |Expand(runs, n, v)| == SumTo(runs, n) >= n
  {
    if n > 0 {
      ExpandLength(runs, n - 1, v);
    }
  }

  lemma {:induction false} AfterAdd(c: Ctx, m: nat, n: nat)
    requires ValidCtx(c)
    ensures After(c, m + n) == After(After(c, m), n)
  {
    if n > 0 {
      AfterAdd(c, m, n - 1);
    }
  }

  lemma {:induction false} OutputsAdd(c: Ctx, m: nat, n: nat)
    requires ValidCtx(c)
    ensures Outputs(c, m + n) == Outputs(c, m) + Outputs(After(c, m), n)
  {
    if n > 0 {
      AfterAdd(c, m, n - 1);
      OutputsAdd(c, m, n - 1);
      assert Outputs(c, m + n) == Outputs(c, m + (n - 1)) + [Decide(After(c, m + (n - 1))).0];
    }
  }

  /** Inside a run the engine only counts. */
  lemma {:induction false} InsideRun(c: Ctx, n: nat)
    requires ValidCtx(c) && c.bcount == 0 && n < c.brings[c.boffset]
    ensures After(c, n) == c.(bcount := n)
    ensures Outputs(c, n) == Repeat(c.bvalue, n)
    ensures Decide(After(c, n)).0 == c.bvalue
  {
    if n > 0 {
      InsideRun(c, n - 1);
    }
  }

  /** A whole run: its decisions all have the run's value, then the next run begins. */
  lemma {:induction false} WholeRun(c: Ctx)
    requires ValidCtx(c) && c.bcount == 0 && c.brings[c.boffset] >= 1
    ensures After(c, c.brings[c.boffset])
         == c.(boffset := Advance(c.boffset, c.bsize), bvalue := !c.bvalue)
    ensures Outputs(c, c.brings[c.boffset]) == Repeat(c.bvalue, c.brings[c.boffset])
  {
    InsideRun(c, c.brings[c.boffset] - 1);
  }

  /** The context at the start of run `k`; the table wraps after its last run. */
  function RunStart(c: Ctx, k: nat): Ctx {
    c.(boffset := if k == c.bsize then 0 else k, bvalue := RunValue(c.bvalue, k))
  }

  /** The first `n` decisions of `c` are `out` and leave context `d`. */
  ghost predicate Plays(c: Ctx, n: int, out: seq<bool>, d: Ctx)
    requires ValidCtx(c)
  {
    n >= 0 && Outputs(c, n) == out && After(c, n) == d
  }

  /**
   Decoding: from the start of its table, the engine's first decisions are exactly
   the runs of `brings`, in order and with alternating value.
   */
  lemma {:induction false} EnginePlaysRuns(c: Ctx, k: nat)
    requires ValidCtx(c) && c.boffset == 0 && c.bcount == 0
    requires k <= c.bsize && AllPositive(c.brings, k)
    ensures Plays(c, SumTo(c.brings, k), Expand(c.brings, k, c.bvalue), RunStart(c, k))
  {
    if k > 0 {
      EnginePlaysRuns(c, k - 1);
      var n, out, d := SumTo(c.brings, k - 1), Expand(c.brings, k - 1, c.bvalue), RunStart(c, k - 1);
      PlayOneMore(c, n, out, d);
      NextRunStart(c, k - 1);
    }
  }

  lemma NextRunStart(c: Ctx, k: nat)
    requires ValidCtx(c) && k < c.bsize
    ensures var d := RunStart(c, k);
      && d.bcount == c.bcount && d.brings[d.boffset] == c.brings[k] && d.bvalue == RunValue(c.bvalue, k)
      && d.(boffset := Advance(d.boffset, d.bsize), bvalue := !d.bvalue) == RunStart(c, k + 1)
  {
  }

  lemma PlayOneMore(c: Ctx, n: nat, out: seq<bool>, d: Ctx)
    requires ValidCtx(c) && Plays(c, n, out, d)
    requires d.bcount == 0 && d.brings[d.boffset] >= 1
    ensures Plays(c, n + d.brings[d.boffset], out + Repeat(d.bvalue, d.brings[d.boffset]),
                  d.(boffset := Advance(d.boffset, d.bsize), bvalue := !d.bvalue))
  {
    WholeRun(d);
    AfterAdd(c, n, d.brings[d.boffset]);
    OutputsAdd(c, n, d.brings[d.boffset]);
  }

  /** The number of decisions in `m` passes over the table. */
  function Passes(c: Ctx, m: nat): int
    requires ValidCtx(c)
  {
    if m == 0 then 0 else Passes(c, m - 1) + SumTo(c.brings, c.bsize)
  }

  /**
   With an even table the engine is back at its starting point after every pass, so
   the stream of decisions is periodic.
   */
  lemma {:induction false} EngineIsPeriodic(c: Ctx, m: nat)
    requires ValidCtx(c) && c.boffset == 0 && c.bcount == 0
    requires c.bsize % 2 == 0 && AllPositive(c.brings, c.bsize)
    ensures Passes(c, m) >= m
    ensures After(c, Passes(c, m)) == c
    ensures forall n: nat :: Outputs(After(c, Passes(c, m)), n) == Outputs(c, n)
  {
    if m > 0 {
      EngineIsPeriodic(c, m - 1);
      OnePass(c);
      AfterAdd(c, Passes(c, m - 1), SumTo(c.brings, c.bsize));
    }
  }

  lemma OnePass(c: Ctx)
    requires ValidCtx(c) && c.boffset == 0 && c.bcount == 0
    requires c.bsize % 2 == 0 && AllPositive(c.brings, c.bsize)
    ensures SumTo(c.brings, c.bsize) >= 1
    ensures After(c, SumTo(c.brings, c.bsize)) == c
  {
    ExpandLength(c.brings, c.bsize, c.bvalue);
    EnginePlaysRuns(c, c.bsize);
  }

  // ---------- Runs without length ----------

  /** How many decisions a run lasts: a run is left only after a decision. */
  function RunLength(n: int): nat {
    if n < 1 then 1 else n
  }

  function RunLengths(runs: seq<int>): (r: seq<int>)
    ensures |r| == |runs| && forall i | 0 <= i < |r| :: r[i] == RunLength(runs[i])
  {
    seq(|runs|, i requires 0 <= i < |runs| => RunLength(runs[i]))
  }

  function WithLengths(c: Ctx): Ctx {
    c.(brings := RunLengths(c.brings))
  }

  lemma {:induction false} EmptyRunsCountOnce(c: Ctx, n: nat)
    requires ValidCtx(c) && c.bcount >= 0
    ensures ValidCtx(WithLengths(c)) && Outputs(WithLengths(c), n) == Outputs(c, n)
    ensures After(WithLengths(c), n) == WithLengths(After(c, n)) && After(c, n).bcount >= 0
    ensures After(c, n).brings == c.brings
  {
    if n > 0 {
      EmptyRunsCountOnce(c, n - 1);
    }
  }

  /** Decoding of any table: a run of no or negative length lasts for one decision. */
  lemma EnginePlaysAnyRuns(c: Ctx, k: nat)
    requires ValidCtx(c) && c.boffset == 0 && c.bcount == 0 && k <= c.bsize
    ensures SumTo(RunLengths(c.brings), k) >= 0
    ensures Outputs(c, SumTo(RunLengths(c.brings), k)) == Expand(RunLengths(c.brings), k, c.bvalue)
    ensures WithLengths(After(c, SumTo(RunLengths(c.brings), k))) == WithLengths(RunStart(c, k))
  {
    var d := WithLengths(c);
    EnginePlaysRuns(d, k);
    EmptyRunsCountOnce(c, SumTo(d.brings, k));
  }

  // ---------- The contexts that initialisation builds ----------

  /** A cleared context: one run of one take. */
  function ClearedCtx(): Ctx {
    Ctx(0, 1, true, 0, [1] + seq(MAXBRINGS - 1, i => 0))
  }

  lemma ClearedTakesOnce()
    ensures ValidCtx(ClearedCtx()) && Outputs(ClearedCtx(), 1) == [true] && Outputs(ClearedCtx(), 2) == [true, false]
  {
    assert After(ClearedCtx(), 1) == ClearedCtx().(bvalue := false);
    assert Outputs(ClearedCtx(), 1) == Outputs(ClearedCtx(), 0) + [true];
    assert Outputs(ClearedCtx(), 2) == Outputs(ClearedCtx(), 1) + [false];
  }

  /** The run length of a GOTO. */
  const FOREVER := 0x7fff_ffff

  function GotoCtx(): Ctx {
    Ctx(0, 1, true, 0, [FOREVER] + seq(MAXBRINGS - 1, i => 0))
  }

  /** A GOTO takes its branch 0x7fffffff times, and then refuses. */
  lemma GotoTakes(n: nat)
    requires n <= 0x7fff_ffff
    ensures ValidCtx(GotoCtx()) && Outputs(GotoCtx(), n) == Repeat(true, n)
    ensures Decide(After(GotoCtx(), n)).0 == (n < 0x7fff_ffff)
  {
    if n < 0x7fff_ffff {
      InsideRun(GotoCtx(), n);
    } else {
      WholeRun(GotoCtx());
    }
  }

  /** Loop counts alternate with a single escape; `draws` are the raw random numbers. */
  function LoopCtx(b: Branch, draws: seq<nat>): Ctx
    requires b.max > b.min ==> |draws| >= MAXBRINGS / 2
  {
    Ctx(0, MAXBRINGS, b.btype == FOR, 0,
        seq(MAXBRINGS, i requires 0 <= i < MAXBRINGS =>
          if i % 2 == 1 then 1
          else if b.max > b.min then draws[i / 2] % (b.max - b.min) + b.min
          else b.min))
  }

  /** The loop count that a random number gives: one of `min .. max - 1`, or `min` if there is no choice. */
  function DrawnCount(b: Branch, number: nat): int {
    if b.max > b.min then b.min + number % (b.max - b.min) else b.min
  }

  /** What a loop branch decides in a round: a FOR takes as often as counted and refuses once, an NFOR the other way. */
  function LoopRoundOf(b: Branch, number: nat): seq<bool> {
    Repeat(b.btype == FOR, RunLength(DrawnCount(b, number))) + [b.btype != FOR]
  }

  /** What it decides in its first rounds, for these random numbers. */
  function LoopDecisions(b: Branch, numbers: seq<nat>, rounds: nat): seq<bool>
    requires rounds <= |numbers|
  {
    if rounds == 0 then [] else LoopDecisions(b, numbers, rounds - 1) + LoopRoundOf(b, numbers[rounds - 1])
  }

  lemma LoopCells(b: Branch, numbers: seq<nat>, round: nat)
    requires |numbers| >= MAXBRINGS / 2 && round < MAXBRINGS / 2
    ensures LoopCtx(b, numbers).brings[2 * round] == DrawnCount(b, numbers[round])
    ensures LoopCtx(b, numbers).brings[2 * round + 1] == 1
  {
  }

  lemma {:induction false} LoopRuns(b: Branch, numbers: seq<nat>, rounds: nat)
    requires |numbers| >= MAXBRINGS / 2 && rounds <= MAXBRINGS / 2
    ensures var runs := RunLengths(LoopCtx(b, numbers).brings);
      Expand(runs, 2 * rounds, b.btype == FOR) == LoopDecisions(b, numbers, rounds)
  {
    if rounds > 0 {
      LoopRuns(b, numbers, rounds - 1);
      LoopNextRound(b, numbers, rounds - 1, RunLengths(LoopCtx(b, numbers).brings));
    }
  }

  lemma LoopNextRound(b: Branch, numbers: seq<nat>, round: nat, runs: seq<int>)
    requires |numbers| >= MAXBRINGS / 2 && round < MAXBRINGS / 2 && runs == RunLengths(LoopCtx(b, numbers).brings)
    ensures var v := b.btype == FOR;
      Expand(runs, 2 * (round + 1), v) == Expand(runs, 2 * round, v) + LoopRoundOf(b, numbers[round])
  {
    LoopCells(b, numbers, round);
    LoopRound(runs, 2 * round, b.btype == FOR);
  }

  /** Two more runs, the second one of length 1. */
  lemma LoopRound(runs: seq<int>, n: nat, v: bool)
    requires n % 2 == 0 && n + 2 <= |runs| && runs[n + 1] == 1
    ensures Expand(runs, n + 2, v) == Expand(runs, n, v) + Repeat(v, runs[n]) + [!v]
  {
    assert Repeat(!v, 1) == [!v];
    assert Expand(runs, n + 2, v) == Expand(runs, n + 1, v) + Repeat(!v, 1);
  }

  /** The engine of a loop plays the rounds that its random numbers give. */
  lemma LoopPlaysDraws(b: Branch, numbers: seq<nat>, rounds: nat)
    requires |numbers| >= MAXBRINGS / 2 && rounds <= MAXBRINGS / 2
    ensures var c := LoopCtx(b, numbers);
      ValidCtx(c) && Outputs(c, |LoopDecisions(b, numbers, rounds)|) == LoopDecisions(b, numbers, rounds)
  {
    var c := LoopCtx(b, numbers);
    EnginePlaysAnyRuns(c, 2 * rounds);
    LoopRuns(b, numbers, rounds);
    ExpandLength(RunLengths(c.brings), 2 * rounds, c.bvalue);
  }

  /** The run-length code of `draws`, up to the end of its hundredth run. */
  ghost predicate CodesDraws(c: Ctx, draws: seq<bool>) {
    && |c.brings| == MAXBRINGS && c.boffset == 0 && c.bsize == MAXBRINGS && c.bcount == 0
    && AllPositive(c.brings, MAXBRINGS)
    && 0 < Sum(c.brings) < |draws|
    && c.bvalue == draws[0]
    && Expand(c.brings, MAXBRINGS, c.bvalue) == draws[..Sum(c.brings)]
    && draws[Sum(c.brings)] == draws[0]
  }

  /** How often consecutive draws differ among the first `n`. */
  function Alternations(draws: seq<bool>, n: nat): nat
    requires n <= |draws|
  {
    if n < 2 then 0
    else Alternations(draws, n - 1) + (if draws[n - 1] != draws[n - 2] then 1 else 0)
  }

  /** Round trip: the engine built from IF draws replays those draws, in order, and is then as before. */
  lemma ReplaysDraws(c: Ctx, draws: seq<bool>)
    requires CodesDraws(c, draws)
    ensures ValidCtx(c)
    ensures Outputs(c, Sum(c.brings)) == draws[..Sum(c.brings)]
    ensures After(c, Sum(c.brings)) == c
  {
    EnginePlaysRuns(c, MAXBRINGS);
  }

  /** The draws determine the table: two codes of one stream are equal. */
  lemma {:induction false} CodeIsUnique(runs: seq<int>, runs': seq<int>, n: nat, v: bool)
    requires n <= |runs| && n <= |runs'| && AllPositive(runs, n) && AllPositive(runs', n)
    requires Expand(runs, n, v) == Expand(runs', n, v)
    ensures runs[..n] == runs'[..n]
  {
    if n > 0 {
      LastRunIsNotLonger(runs, runs', n, v);
      LastRunIsNotLonger(runs', runs, n, v);
      var a, b := Expand(runs, n - 1, v), Expand(runs', n - 1, v);
      assert a == Expand(runs, n, v)[..|a|] && b == Expand(runs', n, v)[..|b|];
      CodeIsUnique(runs, runs', n - 1, v);
    }
  }

  /** The last run starts where the value last changes. */
  lemma LastRunIsNotLonger(runs: seq<int>, runs': seq<int>, n: nat, v: bool)
    requires 0 < n <= |runs| && n <= |runs'| && AllPositive(runs, n) && AllPositive(runs', n)
    requires Expand(runs, n, v) == Expand(runs', n, v)
    ensures runs[n - 1] <= runs'[n - 1]
    ensures |Expand(runs, n - 1, v)| >= |Expand(runs', n - 1, v)|
  {
    var a, b := Expand(runs, n - 1, v), Expand(runs', n - 1, v);
    var r, r' := Repeat(RunValue(v, n - 1), runs[n - 1]), Repeat(RunValue(v, n - 1), runs'[n - 1]);
    assert a + r == b + r';
    if |a| < |b| {
      LastOfExpand(runs', n - 1, v);
      LongerPrefixEndsInSuffix(a, r, b, r', RunValue(v, n - 1));
    }
  }

  lemma LongerPrefixEndsInSuffix(a: seq<bool>, r: seq<bool>, b: seq<bool>, r': seq<bool>, u: bool)
    requires a + r == b + r' && |a| < |b|
    requires forall i | 0 <= i < |r| :: r[i] == u
    ensures b[|b| - 1] == u
  {
    var at := |b| - 1;
    assert b[at] == (b + r')[at] == r[at - |a|];
  }

  lemma LastOfExpand(runs: seq<int>, n: nat, v: bool)
    requires 0 < n <= |runs| && AllPositive(runs, n)
    ensures var e := Expand(runs, n, v); |e| > 0 && e[|e| - 1] == RunValue(v, n - 1)
  {
    assert |Repeat(RunValue(v, n - 1), runs[n - 1])| >= 1;
  }

  lemma {:induction false} AlternationsOfRun(draws: seq<bool>, k: nat, m: nat, u: bool)
    requires k + m <= |draws| && m > 0 && forall i | k <= i < k + m :: draws[i] == u
    requires k > 0 ==> draws[k - 1] != u
    ensures Alternations(draws, k + m) == Alternations(draws, k) + (if k > 0 then 1 else 0)
  {
    if m > 1 {
      AlternationsOfRun(draws, k, m - 1, u);
    }
  }

  /** `n` runs have `n - 1` changes of value between them. */
  lemma {:induction false} AlternationsOfExpand(draws: seq<bool>, runs: seq<int>, n: nat, v: bool, k: nat)
    requires 0 < n <= |runs| && AllPositive(runs, n) && k <= |draws| && Expand(runs, n, v) == draws[..k]
    ensures k > 0 && Alternations(draws, k) == n - 1 && draws[k - 1] == RunValue(v, n - 1)
  {
    var before, last := Expand(runs, n - 1, v), Repeat(RunValue(v, n - 1), runs[n - 1]);
    var m := |before|;
    assert before + last == draws[..k];
    assert before == draws[..m];
    assert forall i | m <= i < k :: draws[i] == last[i - m];
    if n > 1 {
      AlternationsOfExpand(draws, runs, n - 1, v, m);
    }
    AlternationsOfRun(draws, m, k - m, RunValue(v, n - 1));
  }

  lemma {:induction false} AlternationsGrow(draws: seq<bool>, m: nat, n: nat)
    requires m <= n <= |draws|
    ensures Alternations(draws, m) <= Alternations(draws, n)
  {
    if m < n {
      AlternationsGrow(draws, m, n - 1);
    }
  }

  lemma CodeLengths(c: Ctx, c': Ctx, draws: seq<bool>)
    requires CodesDraws(c, draws) && CodesDraws(c', draws)
    ensures Sum(c.brings) >= Sum(c'.brings)
  {
    var n, n' := Sum(c.brings), Sum(c'.brings);
    AlternationsOfExpand(draws, c.brings, MAXBRINGS, c.bvalue, n);
    AlternationsOfExpand(draws, c'.brings, MAXBRINGS, c'.bvalue, n');
    if n < n' {
      AlternationsGrow(draws, n + 1, n');
    }
  }

  /** The coin tosses determine the whole context. */
  lemma DrawsDetermineCode(c: Ctx, c': Ctx, draws: seq<bool>)
    requires CodesDraws(c, draws) && CodesDraws(c', draws)
    ensures c == c'
  {
    CodeLengths(c, c', draws);
    CodeLengths(c', c, draws);
    CodeIsUnique(c.brings, c'.brings, MAXBRINGS, c.bvalue);
    assert c.brings == c.brings[..MAXBRINGS] && c'.brings == c'.brings[..MAXBRINGS];
  }

  /** What `bcontext_init` can leave for a branch, over all random draws. */
  ghost predicate Admissible(b: Branch, c: Ctx) {
    match b.btype
    case GOTO => c == GotoCtx()
    case IF => exists draws :: CodesDraws(c, draws)
    case _ => exists draws: seq<nat> :: |draws| >= MAXBRINGS / 2 && c == LoopCtx(b, draws)
  }

  lemma AdmissibleIsValid(b: Branch, c: Ctx)
    requires Admissible(b, c)
    ensures ValidCtx(c) && c.boffset == 0 && c.bcount == 0
    ensures b.btype == IF ==> AllPositive(c.brings, MAXBRINGS) && c.bsize == MAXBRINGS
    ensures b.btype == FOR ==> c.bsize == MAXBRINGS && c.bvalue
    ensures b.btype == FOR && b.min < b.max ==>
      forall i | 0 <= i < MAXBRINGS :: if i % 2 == 0 then b.min <= c.brings[i] < b.max else c.brings[i] == 1
  {
    if b.btype == FOR {
      var draws: seq<nat> :| |draws| >= MAXBRINGS / 2 && c == LoopCtx(b, draws);
    }
  }
}
