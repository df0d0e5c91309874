/** Repeating a step, and arguing that something is reached by a measure that falls. */
module Iteration {
  function Iterate<T>(next: T -> T, s: T, n: nat): T
    decreases n
  {
    if n == 0 then s else Iterate(next, next(s), n - 1)
  }

  /** What holds after the first step and the rest holds after all of them. */
  lemma HoldsAfter<T>(good: T -> bool, next: T -> T, s: T, n: nat)
    requires if n == 0 then good(s) else good(Iterate(next, next(s), n - 1))
    ensures good(Iterate(next, s, n))
  {
  }

  lemma {:induction false} IterateAdd<T>(next: T -> T, s: T, m: nat, n: nat)
    ensures Iterate(next, s, m + n) == Iterate(next, Iterate(next, s, m), n)
    decreases m
  {
    if m > 0 {
      IterateAdd(next, next(s), m - 1, n);
    }
  }

  lemma {:induction false} IterateKeeps<T(!new)>(next: T -> T, good: T -> bool, s: T, n: nat)
    requires good(s) && forall t | good(t) :: good(next(t))
    ensures good(Iterate(next, s, n))
    decreases n
  {
    if n > 0 {
      IterateKeeps(next, good, next(s), n - 1);
    }
  }

  lemma IterateKeepsOn<T(!new)>(next: T -> T, good: T -> bool, s: T, m: nat, n: nat)
    requires m <= n && good(Iterate(next, s, m)) && forall t | good(t) :: good(next(t))
    ensures good(Iterate(next, s, n))
  {
    IterateAdd(next, s, m, n - m);
    IterateKeeps(next, good, Iterate(next, s, m), n - m);
  }

  /** A good state that is not done moves to a good state of smaller cost. */
  ghost predicate Falls<T>(next: T -> T, good: T -> bool, done: T -> bool, cost: T -> int, t: T) {
    good(t) && !done(t) ==> good(next(t)) && 0 <= cost(next(t)) < cost(t)
  }

  ghost predicate AlwaysFalls<T(!new)>(next: T -> T, good: T -> bool, done: T -> bool, cost: T -> int) {
    forall t :: Falls(next, good, done, cost, t)
  }

  lemma {:induction false} Descend<T(!new)>(next: T -> T, good: T -> bool, done: T -> bool, cost: T -> int, s: T)
    returns (n: nat)
    requires good(s) && cost(s) >= 0
    requires AlwaysFalls(next, good, done, cost)
    ensures n <= cost(s) && done(Iterate(next, s, n)) && good(Iterate(next, s, n))
    decreases cost(s)
  {
    if done(s) {
      n := 0;
    } else {
      assert Falls(next, good, done, cost, s);
      var rest := Descend(next, good, done, cost, next(s));
      n := rest + 1;
    }
  }

  /** `m` steps at a time. */
  function Stride<T>(next: T -> T, m: nat): T -> T {
    t => Iterate(next, t, m)
  }

  lemma {:induction false} IterateStride<T>(next: T -> T, s: T, m: nat, n: nat)
    ensures n * m >= 0 && Iterate(Stride(next, m), s, n) == Iterate(next, s, n * m)
    decreases n
  {
    if n > 0 {
      IterateStride(next, Iterate(next, s, m), m, n - 1);
      IterateAdd(next, s, m, (n - 1) * m);
      assert n * m == m + (n - 1) * m;
    }
  }

  /** As `Descend`, when the cost falls every `m` steps. */
  lemma DescendByStrides<T(!new)>(next: T -> T, good: T -> bool, done: T -> bool, cost: T -> int, s: T, m: nat)
    returns (n: nat)
    requires good(s) && cost(s) >= 0
    requires AlwaysFalls(Stride(next, m), good, done, cost)
    ensures n <= cost(s) * m && done(Iterate(next, s, n)) && good(Iterate(next, s, n))
  {
    var strides := Descend(Stride(next, m), good, done, cost, s);
    IterateStride(next, s, m, strides);
    n := strides * m;
    assert strides * m <= cost(s) * m;
  }
}
