/** The branching engine as the simulator keeps it: a record updated in place. */
module BranchContexts {
  import opened Machine
  import opened Programs
  import E = BranchEngine

  /** The random draws for one branch: coin tosses for an IF, numbers for a loop. */
  datatype Draws = Draws(coins: seq<bool>, numbers: seq<nat>)

  /** Enough draws for the initialisation to end: a hundred changes of value for an IF. */
  ghost predicate Suffices(b: Branch, draws: Draws) {
    match b.btype
    case GOTO => true
    case IF => E.Alternations(draws.coins, |draws.coins|) >= MAXBRINGS
    case _ => |draws.numbers| >= MAXBRINGS / 2
  }

  class BranchContext {
    var boffset: int
    var bsize: int
    var bvalue: bool
    var bcount: int
    const brings: array<int>

    constructor ()
      ensures brings.Length == MAXBRINGS && fresh(brings)
    {
      brings := new int[MAXBRINGS];
    }

    function Value(): E.Ctx
      reads this, brings
    {
      E.Ctx(boffset, bsize, bvalue, bcount, brings[..])
    }

    /** `bcontext_clear`. */
    method Clear()
      requires brings.Length == MAXBRINGS
      modifies this, brings
      ensures Value() == E.ClearedCtx()
    {
      bcount := 0;
      boffset := 0;
      bsize := 1;
      bvalue := true;
      brings[0] := 1;
      for i := 1 to MAXBRINGS
        invariant brings[0] == 1 && forall j | 1 <= j < i :: brings[j] == 0
        invariant bcount == 0 && boffset == 0 && bsize == 1 && bvalue
      {
        brings[i] := 0;
      }
      assert brings[..] == E.ClearedCtx().brings;
    }

    /** `bcontext_init`, after `Clear`. */
    method Init(b: Branch, draws: Draws)
      requires brings.Length == MAXBRINGS && Value() == E.ClearedCtx() && Suffices(b, draws)
      modifies this, brings
      ensures E.ValidCtx(Value()) && E.Admissible(b, Value())
      ensures b.btype == GOTO ==> Value() == E.GotoCtx()
      ensures b.btype == IF ==> E.CodesDraws(Value(), draws.coins)
      ensures b.btype == FOR || b.btype == NFOR ==> Value() == E.LoopCtx(b, draws.numbers)
    {
      bcount := 0;
      match b.btype {
        case GOTO => InitGoto();
        case IF => InitIf(draws.coins);
        case FOR =>
          boffset := 0;
          bvalue := true;
          InitLoop(b, draws.numbers);
        case NFOR =>
          boffset := 0;
          bvalue := false;
          InitLoop(b, draws.numbers);
      }
      E.AdmissibleIsValid(b, Value());
    }

    method InitGoto()
      requires brings.Length == MAXBRINGS && bcount == 0
      modifies this, brings
      ensures Value() == E.GotoCtx()
    {
      boffset := 0;
      bsize := 1;
      bvalue := true;
      brings[0] := E.FOREVER;
      for i := 1 to MAXBRINGS
        invariant brings[0] == E.FOREVER && forall j | 1 <= j < i :: brings[j] == 0
        invariant bcount == 0 && boffset == 0 && bsize == 1 && bvalue
      {
        brings[i] := 0;
      }
      assert brings[..] == E.GotoCtx().brings;
    }

    /** Loop counts, each followed by one escape. */
    method InitLoop(b: Branch, numbers: seq<nat>)
      requires brings.Length == MAXBRINGS && |numbers| >= MAXBRINGS / 2
      requires bcount == 0 && boffset == 0 && bvalue == (b.btype == FOR)
      modifies this, brings
      ensures Value() == E.LoopCtx(b, numbers)
    {
      bsize := 0;
      while bsize < MAXBRINGS
        invariant 0 <= bsize <= MAXBRINGS && bsize % 2 == 0
        invariant forall j | 0 <= j < bsize :: brings[j] == E.LoopCtx(b, numbers).brings[j]
        invariant bcount == 0 && boffset == 0 && bvalue == (b.btype == FOR)
      {
        if b.max > b.min {
          brings[bsize] := numbers[bsize / 2] % (b.max - b.min) + b.min;
        } else {
          brings[bsize] := b.min;
        }
        bsize := bsize + 1;
        brings[bsize] := 1;
        bsize := bsize + 1;
      }
      assert brings[..] == E.LoopCtx(b, numbers).brings;
    }

    /**
     The run lengths of the coin tosses. The first toss is counted by the 1 that
     clearing left in `brings[0]`. The toss that ends the hundredth run is not stored.
     */
    method InitIf(coins: seq<bool>)
      requires brings.Length == MAXBRINGS && Value() == E.ClearedCtx()
      requires E.Alternations(coins, |coins|) >= MAXBRINGS
      modifies this, brings
      ensures E.CodesDraws(Value(), coins)
    {
      boffset := 0;
      bsize := 0;
      bvalue := coins[0];
      var cvalue := bvalue;
      bcount := 0;
      var tosses := 1;
      CodingBegins(Value(), coins);
      while bsize < MAXBRINGS
        invariant 0 <= bsize <= MAXBRINGS && 1 <= tosses <= |coins|
        invariant Coding(Value(), cvalue, coins, tosses)
        decreases |coins| - tosses
      {
        TossesLeft(Value(), cvalue, coins, tosses);
        cvalue := CountToss(coins[tosses], cvalue, coins, tosses);
        tosses := tosses + 1;
      }
      CodeComplete(Value(), cvalue, coins, tosses);
    }

    /** One toss: it prolongs the open run, or opens the next one. */
    method CountToss(coin: bool, cvalue: bool, ghost coins: seq<bool>, ghost tosses: int) returns (cvalue': bool)
      requires brings.Length == MAXBRINGS && 0 <= bsize < MAXBRINGS
      requires Coding(Value(), cvalue, coins, tosses) && tosses < |coins| && coin == coins[tosses]
      modifies this`bsize, brings
      ensures Coding(Value(), cvalue', coins, tosses + 1)
    {
      ghost var c := Value();
      if coin == cvalue {
        CodeLonger(c, cvalue, coins, tosses);
        brings[bsize] := brings[bsize] + 1;
        assert brings[..] == c.brings[bsize := c.brings[bsize] + 1];
        cvalue' := cvalue;
      } else {
        bsize := bsize + 1;
        if bsize < MAXBRINGS {
          CodeNext(c, cvalue, coins, tosses);
          brings[bsize] := 1;
          assert brings[..] == c.brings[bsize := 1];
        } else {
          CodeLast(c, cvalue, coins, tosses);
        }
        cvalue' := !cvalue;
      }
    }

    /** `bcontext_decide`. */
    method Decide() returns (take: bool)
      requires E.ValidCtx(Value())
      modifies this`boffset, this`bcount, this`bvalue
      ensures E.ValidCtx(Value())
      ensures (take, Value()) == E.Decide(old(Value()))
    {
      take := bvalue;
      bcount := bcount + 1;
      if bcount >= brings[boffset] {
        E.AdvanceIsModular(boffset, bsize);
        boffset := (boffset + 1) % bsize;
        bcount := 0;
        bvalue := !bvalue;
      }
    }
  }

  /**
   Halfway through the tosses: complete runs, and a run number `c.bsize` that is still open.
   The toss that opens a run beyond the table is not coded.
   */
  ghost predicate Coding(c: E.Ctx, cvalue: bool, coins: seq<bool>, tosses: int) {
    var size, runs := c.bsize, c.brings;
    && |runs| == MAXBRINGS && 0 <= size <= |runs| && 1 <= tosses <= |coins|
    && c.boffset == 0 && c.bcount == 0 && c.bvalue == coins[0]
    && cvalue == E.RunValue(c.bvalue, size) == coins[tosses - 1]
    && E.Alternations(coins, tosses) == size
    && if size < |runs|
       then E.AllPositive(runs, size + 1) && E.Expand(runs, size + 1, c.bvalue) == coins[..tosses]
       else E.AllPositive(runs, size) && E.Expand(runs, size, c.bvalue) == coins[..tosses - 1]
  }

  lemma {:induction false} ExpandPrefix(runs: seq<int>, runs': seq<int>, n: nat, v: bool)
    requires n <= |runs| && n <= |runs'| && forall i | 0 <= i < n :: runs[i] == runs'[i]
    ensures E.Expand(runs, n, v) == E.Expand(runs', n, v)
  {
    if n > 0 {
      ExpandPrefix(runs, runs', n - 1, v);
    }
  }

  lemma CodingBegins(c: E.Ctx, coins: seq<bool>)
    requires |coins| > 0 && c == E.ClearedCtx().(bsize := 0, bvalue := coins[0])
    ensures Coding(c, coins[0], coins, 1)
  {
  }

  lemma TossesLeft(c: E.Ctx, cvalue: bool, coins: seq<bool>, tosses: int)
    requires Coding(c, cvalue, coins, tosses) && c.bsize < MAXBRINGS
    requires E.Alternations(coins, |coins|) >= MAXBRINGS
    ensures tosses < |coins|
  {
  }

  lemma CodeComplete(c: E.Ctx, cvalue: bool, coins: seq<bool>, tosses: int)
    requires Coding(c, cvalue, coins, tosses) && c.bsize == MAXBRINGS
    ensures E.CodesDraws(c, coins)
  {
    E.ExpandLength(c.brings, c.bsize, c.bvalue);
  }

  /** One more toss of the open run's value. */
  lemma CodeLonger(c: E.Ctx, cvalue: bool, coins: seq<bool>, tosses: int)
    requires Coding(c, cvalue, coins, tosses) && c.bsize < MAXBRINGS && tosses < |coins|
    requires coins[tosses] == cvalue
    ensures Coding(c.(brings := c.brings[c.bsize := c.brings[c.bsize] + 1]), cvalue, coins, tosses + 1)
  {
    ExpandPrefix(c.brings, c.brings[c.bsize := c.brings[c.bsize] + 1], c.bsize, c.bvalue);
    assert coins[..tosses + 1] == coins[..tosses] + [coins[tosses]];
  }

  /** A toss that opens the next run. */
  lemma CodeNext(c: E.Ctx, cvalue: bool, coins: seq<bool>, tosses: int)
    requires Coding(c, cvalue, coins, tosses) && c.bsize + 1 < MAXBRINGS && tosses < |coins|
    requires coins[tosses] != cvalue
    ensures Coding(c.(bsize := c.bsize + 1, brings := c.brings[c.bsize + 1 := 1]), !cvalue, coins, tosses + 1)
  {
    var runs := c.brings[c.bsize + 1 := 1];
    ExpandPrefix(c.brings, runs, c.bsize + 1, c.bvalue);
    RunOpens(runs, c.bsize + 1, c.bvalue, coins, tosses);
  }

  lemma RunOpens(runs: seq<int>, n: nat, v: bool, coins: seq<bool>, tosses: int)
    requires n < |runs| && runs[n] == 1 && 0 <= tosses < |coins| && coins[tosses] == E.RunValue(v, n)
    requires E.Expand(runs, n, v) == coins[..tosses]
    ensures E.Expand(runs, n + 1, v) == coins[..tosses + 1]
  {
    assert E.Repeat(E.RunValue(v, n), 1) == [coins[tosses]];
    assert coins[..tosses + 1] == coins[..tosses] + [coins[tosses]];
  }

  /** The toss that ends the last run. */
  lemma CodeLast(c: E.Ctx, cvalue: bool, coins: seq<bool>, tosses: int)
    requires Coding(c, cvalue, coins, tosses) && c.bsize + 1 == MAXBRINGS && tosses < |coins|
    requires coins[tosses] != cvalue
    ensures Coding(c.(bsize := c.bsize + 1), !cvalue, coins, tosses + 1)
  {
  }
}
