/**
 What the shuffle of the job types does with its draws: the draw at a position exchanges two entries, draws that
 name their own position leave the types as they are, and every arrangement of the types can come about.
 */
module Shuffling {
  import opened Machine
  import opened Simulators

  /** The types after the first `n` draws; the draws go round the queue. */
  function AfterDraws(shuffle: seq<nat>, n: nat): (r: seq<nat>)
    requires n <= |shuffle|
    ensures |r| == QUEUESIZE
  {
    if n == 0 then EvenTypes()
    else Swapped(AfterDraws(shuffle, n - 1), (n - 1) % QUEUESIZE, shuffle[n - 1] % QUEUESIZE)
  }

  /** Entries `i` and `j` have changed places, and no other entry has changed. */
  ghost predicate Exchanged(before: seq<nat>, after: seq<nat>, i: nat, j: nat) {
    && |after| == |before| && i < |before| && j < |before|
    && after[i] == before[j] && after[j] == before[i]
    && forall m | 0 <= m < |before| && m != i && m != j :: after[m] == before[m]
  }

  lemma SwapExchanges(types: seq<nat>, i: nat, j: nat)
    requires i < |types| && j < |types|
    ensures Exchanged(types, Swapped(types, i, j), i, j)
  {
  }

  lemma ExchangeOnce(types: seq<nat>, after: seq<nat>, after': seq<nat>, i: nat, j: nat)
    requires Exchanged(types, after, i, j) && Exchanged(types, after', i, j)
    ensures after == after'
  {
  }

  lemma DrawNumber(base: nat, i: nat)
    requires base % QUEUESIZE == 0 && i < QUEUESIZE
    ensures (base + i) % QUEUESIZE == i
  {
  }

  lemma {:induction false} PassDraws(shuffle: seq<nat>, base: nat, n: nat)
    requires base % QUEUESIZE == 0 && n <= QUEUESIZE && base + n <= |shuffle|
    ensures Pass(AfterDraws(shuffle, base), shuffle, base, n) == AfterDraws(shuffle, base + n)
  {
    if n > 0 {
      PassDraws(shuffle, base, n - 1);
      DrawNumber(base, n - 1);
    }
  }

  /** The passes use up the draws one by one. */
  lemma {:induction false} PassesAreDraws(shuffle: seq<nat>, passes: nat)
    requires passes * QUEUESIZE <= |shuffle|
    ensures Shuffled(shuffle, passes) == AfterDraws(shuffle, passes * QUEUESIZE)
  {
    if passes > 0 {
      PassesAreDraws(shuffle, passes - 1);
      PassDraws(shuffle, (passes - 1) * QUEUESIZE, QUEUESIZE);
    }
  }

  /** Draw number `n` exchanges the entry whose turn it is with the one that it names. */
  lemma DrawExchanges(shuffle: seq<nat>, n: nat)
    requires n < |shuffle|
    ensures Exchanged(AfterDraws(shuffle, n), AfterDraws(shuffle, n + 1), n % QUEUESIZE, shuffle[n] % QUEUESIZE)
  {
    SwapExchanges(AfterDraws(shuffle, n), n % QUEUESIZE, shuffle[n] % QUEUESIZE);
  }

  /** Draws that name the position whose turn it is, from `m` up to `n`. */
  ghost predicate NameThemselves(shuffle: seq<nat>, m: nat, n: nat) {
    m <= n <= |shuffle| && forall i | m <= i < n :: shuffle[i] % QUEUESIZE == i % QUEUESIZE
  }

  lemma {:induction false} NothingMoves(shuffle: seq<nat>, m: nat, n: nat)
    requires NameThemselves(shuffle, m, n)
    ensures AfterDraws(shuffle, n) == AfterDraws(shuffle, m)
  {
    if m < n {
      NothingMoves(shuffle, m, n - 1);
      DrawExchanges(shuffle, n - 1);
    }
  }

  /** Draws that name their own positions leave the types as they were. */
  lemma OwnPositionsKeepTypes(shuffle: seq<nat>)
    requires |shuffle| == PASSES * QUEUESIZE && NameThemselves(shuffle, 0, |shuffle|)
    ensures forall i | 0 <= i < QUEUESIZE :: Shuffled(shuffle, PASSES)[i] == i % PROGRAMCOUNT
  {
    NothingMoves(shuffle, 0, |shuffle|);
    PassesAreDraws(shuffle, PASSES);
  }

  /** If only draw number `n` names another position, just these two entries change places. */
  lemma OneDrawExchangesTwo(shuffle: seq<nat>, n: nat)
    requires |shuffle| == PASSES * QUEUESIZE && n < |shuffle|
    requires NameThemselves(shuffle, 0, n) && NameThemselves(shuffle, n + 1, |shuffle|)
    ensures Exchanged(EvenTypes(), Shuffled(shuffle, PASSES), n % QUEUESIZE, shuffle[n] % QUEUESIZE)
  {
    NothingMoves(shuffle, 0, n);
    DrawExchanges(shuffle, n);
    NothingMoves(shuffle, n + 1, |shuffle|);
    PassesAreDraws(shuffle, PASSES);
  }

  // ---------- Every arrangement ----------

  lemma SameRest(before: seq<nat>, left: seq<nat>, left': seq<nat>)
    requires multiset(before + left) == multiset(before + left')
    ensures multiset(left) == multiset(left')
  {
    assert multiset(left) == multiset(before + left) - multiset(before);
    assert multiset(left') == multiset(before + left') - multiset(before);
  }

  /** A position from `i` on at which `types` has the entry that `wanted` has at `i`. */
  lemma Available(types: seq<nat>, wanted: seq<nat>, i: nat) returns (j: nat)
    requires |types| == |wanted| && i < |types| && types[..i] == wanted[..i] && multiset(types) == multiset(wanted)
    ensures i <= j < |types| && types[j] == wanted[i]
  {
    var left, left' := types[i..], wanted[i..];
    assert types == types[..i] + left && wanted == types[..i] + left';
    SameRest(types[..i], left, left');
    assert left'[0] in multiset(left);
    var m :| 0 <= m < |left| && left[m] == left'[0];
    j := i + m;
  }

  /** The first `i` entries are right, and the others can be put right. */
  ghost predicate PutRight(types: seq<nat>, wanted: seq<nat>, i: nat) {
    i <= |types| == |wanted| && types[..i] == wanted[..i] && multiset(types) == multiset(wanted)
  }

  lemma {:induction false} SameAfterPrefix(shuffle: seq<nat>, longer: seq<nat>, n: nat)
    requires n <= |shuffle| <= |longer| && shuffle == longer[..|shuffle|]
    ensures AfterDraws(shuffle, n) == AfterDraws(longer, n)
  {
    if n > 0 {
      SameAfterPrefix(shuffle, longer, n - 1);
    }
  }

  lemma ExchangeKeeps(types: seq<nat>, after: seq<nat>, wanted: seq<nat>, i: nat, j: nat)
    requires Exchanged(types, after, i, j) && PutRight(types, wanted, i) && i <= j && types[j] == wanted[i]
    ensures PutRight(after, wanted, i + 1)
  {
    SwapExchanges(types, i, j);
    ExchangeOnce(types, after, Swapped(types, i, j), i, j);
    SwappedIsPermutation(types, i, j);
    assert forall m | 0 <= m < i :: after[m] == types[..i][m] == wanted[..i][m];
  }

  /** The draw at the end of `longer` puts entry `i` right. */
  lemma LastDraw(longer: seq<nat>, types: seq<nat>, wanted: seq<nat>, n: nat, i: nat)
    requires |longer| == n + 1 && i == n % QUEUESIZE && types == AfterDraws(longer, n)
    requires PutRight(types, wanted, i) && i <= longer[n] < QUEUESIZE && types[longer[n]] == wanted[i]
    ensures PutRight(AfterDraws(longer, n + 1), wanted, i + 1)
  {
    DrawExchanges(longer, n);
    ExchangeKeeps(types, AfterDraws(longer, n + 1), wanted, i, longer[n]);
  }

  /** One more draw puts one more entry right. */
  lemma OneMoreRight(shuffle: seq<nat>, wanted: seq<nat>, i: nat) returns (longer: seq<nat>)
    requires i == |shuffle| % QUEUESIZE && |wanted| == QUEUESIZE
    requires PutRight(AfterDraws(shuffle, |shuffle|), wanted, i)
    ensures |longer| == |shuffle| + 1 && PutRight(AfterDraws(longer, |longer|), wanted, i + 1)
  {
    var types := AfterDraws(shuffle, |shuffle|);
    var j := Available(types, wanted, i);
    longer := shuffle + [j];
    SameAfterPrefix(shuffle, longer, |shuffle|);
    LastDraw(longer, types, wanted, |shuffle|, i);
  }

  /** One pass is enough. */
  lemma {:induction false} LastPass(shuffle: seq<nat>, wanted: seq<nat>, i: nat) returns (longer: seq<nat>)
    requires i <= QUEUESIZE == |wanted| && |shuffle| % QUEUESIZE == 0
    requires PutRight(AfterDraws(shuffle, |shuffle|), wanted, 0)
    ensures |longer| == |shuffle| + i && PutRight(AfterDraws(longer, |longer|), wanted, i)
  {
    longer := shuffle;
    if i > 0 {
      longer := LastPass(shuffle, wanted, i - 1);
      DrawNumber(|shuffle|, i - 1);
      longer := OneMoreRight(longer, wanted, i - 1);
    }
  }

  /** Every arrangement of the types comes about for some draws. */
  lemma EveryArrangement(wanted: seq<nat>) returns (shuffle: seq<nat>)
    requires multiset(wanted) == multiset(EvenTypes())
    ensures |shuffle| == PASSES * QUEUESIZE && Shuffled(shuffle, PASSES) == wanted
  {
    SameSize(wanted);
    var own := seq((PASSES - 1) * QUEUESIZE, n => n);
    NothingMoves(own, 0, |own|);
    shuffle := LastPass(own, wanted, QUEUESIZE);
    PassesAreDraws(shuffle, PASSES);
    assert wanted == wanted[..QUEUESIZE];
  }

  lemma SameSize(wanted: seq<nat>)
    requires multiset(wanted) == multiset(EvenTypes())
    ensures |wanted| == QUEUESIZE
  {
    assert |wanted| == |multiset(wanted)|;
  }
}
