/** The fixed sizes of the simulated machine (simulator.h and the head of simulator.c). */
module Machine {
  const PAGESIZE := 128
  const MAXPROCPAGES := 20
  const MAXPC := MAXPROCPAGES * PAGESIZE
  const PAGEWAIT := 100
  const PHYSICALPAGES := 100
  const MAXPROCESSES := 20
  const MAXBRANCHES := 40
  const MAXEXITS := 10
  const MAXBRINGS := 100
  const PROGRAMCOUNT := 5
  const QUEUESIZE := PROGRAMCOUNT * 8

  datatype Option<+T> = None | Some(value: T)
}

/** Sums over the first entries of an integer sequence. */
module Sums {
  function SumTo(xs: seq<int>, n: nat): int
    requires n <= |xs|
  {
    if n == 0 then 0 else SumTo(xs, n - 1) + xs[n - 1]
  }

  function Sum(xs: seq<int>): int {
    SumTo(xs, |xs|)
  }

  lemma {:induction false} SumUpdate(xs: seq<int>, n: nat, k: nat, v: int)
    requires k < |xs| && n <= |xs|
    ensures SumTo(xs[k := v], n) == SumTo(xs, n) + (if k < n then v - xs[k] else 0)
  {
    if n > 0 {
      SumUpdate(xs, n - 1, k, v);
    }
  }

  /** Pointwise order carries over to sums, strictly if one entry is strictly smaller. */
  lemma {:induction false} SumOrder(xs: seq<int>, ys: seq<int>, n: nat)
    requires n <= |xs| && n <= |ys|
    requires forall k | 0 <= k < n :: xs[k] <= ys[k]
    ensures SumTo(xs, n) <= SumTo(ys, n)
    ensures SumTo(xs, n) == SumTo(ys, n) ==> forall k | 0 <= k < n :: xs[k] == ys[k]
  {
    if n > 0 {
      SumOrder(xs, ys, n - 1);
    }
  }

  /** A positive sum has a positive entry. */
  lemma {:induction false} SumPositive(xs: seq<int>, n: nat) returns (k: nat)
    requires n <= |xs| && SumTo(xs, n) > 0
    ensures k < n && xs[k] > 0
  {
    if xs[n - 1] > 0 {
      k := n - 1;
    } else {
      k := SumPositive(xs, n - 1);
    }
  }

  lemma {:induction false} SumOfZeros(xs: seq<int>, n: nat)
    requires n <= |xs| && forall k | 0 <= k < n :: xs[k] == 0
    ensures SumTo(xs, n) == 0
  {
    if n > 0 {
      SumOfZeros(xs, n - 1);
    }
  }

  lemma {:induction false} SumOfEqual(xs: seq<int>, n: nat, x: int)
    requires n <= |xs| && forall k | 0 <= k < n :: xs[k] == x
    ensures SumTo(xs, n) == n * x
  {
    if n > 0 {
      SumOfEqual(xs, n - 1, x);
      assert n * x == (n - 1) * x + x;
    }
  }

  lemma {:induction false} SumNotNegative(xs: seq<int>, n: nat)
    requires n <= |xs| && forall k | 0 <= k < n :: xs[k] >= 0
    ensures SumTo(xs, n) >= 0
  {
    if n > 0 {
      SumNotNegative(xs, n - 1);
    }
  }

  /** A sequence that grows at least by `ds` at each step. */
  lemma {:induction false} GrowthAddsUp(xs: seq<int>, ds: seq<int>, n: nat)
    requires n < |xs| && n <= |ds| && forall t | 0 <= t < n :: xs[t + 1] >= xs[t] + ds[t]
    ensures xs[n] >= xs[0] + SumTo(ds, n)
  {
    if n > 0 {
      GrowthAddsUp(xs, ds, n - 1);
    }
  }

  lemma {:induction false} DifferencesAddUp(xs: seq<int>, ds: seq<int>, n: nat)
    requires n < |xs| && n <= |ds| && forall t | 0 <= t < n :: xs[t + 1] == xs[t] + ds[t]
    ensures xs[n] == xs[0] + SumTo(ds, n)
  {
    if n > 0 {
      DifferencesAddUp(xs, ds, n - 1);
    }
  }
}
