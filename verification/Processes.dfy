/** A process as the simulator keeps it: an object whose fields, pages and contexts are updated in place. */
module Processes {
  import opened Machine
  import opened Programs
  import opened ControlFlow
  import opened RunningTime
  import opened Simulation
  import opened BranchContexts

  /** The two-ended search of `process_step` over the exits. */
  method OnExit(p: Program, pc: int) returns (found: bool)
    requires ValidProgram(p)
    ensures found == AtExit(p, pc)
  {
    var min, max := 0, |p.exits| - 1;
    while min + 1 < max
      invariant 0 <= min <= max < |p.exits|
      invariant forall i | 0 <= i < min || max < i < |p.exits| :: p.exits[i] != pc
    {
      var mid := (min + max) / 2;
      if pc == p.exits[mid] {
        return true;
      } else if pc < p.exits[mid] {
        max := mid;
      } else {
        min := mid;
      }
    }
    found := pc == p.exits[min] || pc == p.exits[max];
  }

  /**
   The two-ended search of `process_step` over the branches. An empty table still
   compares with the zero-initialised first cell; the cell before it never matches here.
   */
  method FindBranch(p: Program, pc: int) returns (found: Option<nat>)
    requires ValidProgram(p)
    ensures found == BranchAt(p, pc)
  {
    var min, max := 0, |p.branches| - 1;
    while min + 1 < max
      invariant |p.branches| > 0 ==> 0 <= min <= max < |p.branches|
      invariant |p.branches| == 0 ==> min == 0 && max == -1
      invariant forall i | 0 <= i < min || max < i < |p.branches| :: p.branches[i].wherefrom != pc
    {
      var mid := (min + max) / 2;
      if pc == p.branches[mid].wherefrom {
        BranchIndex(p, pc, mid);
        return Some(mid);
      } else if pc < p.branches[mid].wherefrom {
        max := mid;
      } else {
        min := mid;
      }
    }
    if pc == BranchCell(p, min).wherefrom {
      return Some(min);
    }
    if 0 <= max && pc == p.branches[max].wherefrom {
      return Some(max);
    }
    found := None;
  }

  const NOPROGRAM := Program(0, [], [])

  class Process {
    const bcontexts: seq<BranchContext>
    const pages: array<int>
    var program: Program
    var pc: int
    var npages: int
    var active: bool
    var compute: nat
    var block: nat
    var pid: int
    ghost const repr: set<object>

    /** The objects a process consists of, all different. */
    ghost predicate Structure() {
      && this in repr && pages in repr && pages.Length == MAXPROCPAGES
      && |bcontexts| == MAXBRANCHES
      && (forall i | 0 <= i < MAXBRANCHES ::
            bcontexts[i] in repr && bcontexts[i].brings in repr && bcontexts[i].brings != pages
            && bcontexts[i].brings.Length == MAXBRINGS)
      && (forall i, j | 0 <= i < j < MAXBRANCHES ::
            bcontexts[i] != bcontexts[j] && bcontexts[i].brings != bcontexts[j].brings)
    }

    ghost function Ctxs(): (r: seq<E.Ctx>)
      requires Structure()
      reads repr
      ensures |r| == MAXBRANCHES && forall i | 0 <= i < MAXBRANCHES :: r[i] == bcontexts[i].Value()
    {
      seq(MAXBRANCHES, i requires 0 <= i < MAXBRANCHES && Structure() reads repr => bcontexts[i].Value())
    }

    /** The job this process stands for. */
    ghost function Value(): Job
      requires Structure()
      reads repr
    {
      Job(program, Control(pc, Ctxs()), pages[..], active, compute, block)
    }

    ghost predicate Valid()
      requires Structure()
      reads repr
    {
      npages == pages.Length && ValidJob(Value())
    }

    constructor ()
      ensures Structure() && fresh(repr)
    {
      var contexts := MakeContexts();
      var cells := new int[MAXPROCPAGES];
      bcontexts := contexts;
      pages := cells;
      program := NOPROGRAM;
      repr := {this, cells} + (set c | c in contexts) + (set c | c in contexts :: c.brings);
    }

    static method MakeContexts() returns (contexts: seq<BranchContext>)
      ensures |contexts| == MAXBRANCHES
      ensures forall i | 0 <= i < |contexts| ::
        fresh(contexts[i]) && fresh(contexts[i].brings) && contexts[i].brings.Length == MAXBRINGS
      ensures forall i, j | 0 <= i < j < |contexts| ::
        contexts[i] != contexts[j] && contexts[i].brings != contexts[j].brings
    {
      contexts := [];
      while |contexts| < MAXBRANCHES
        invariant |contexts| <= MAXBRANCHES
        invariant forall i | 0 <= i < |contexts| ::
          fresh(contexts[i]) && fresh(contexts[i].brings) && contexts[i].brings.Length == MAXBRINGS
        invariant forall i, j | 0 <= i < j < |contexts| ::
          contexts[i] != contexts[j] && contexts[i].brings != contexts[j].brings
      {
        var c := new BranchContext();
        contexts := contexts + [c];
      }
    }

    /** `process_clear`. */
    method Clear()
      requires Structure()
      modifies repr
      ensures Ctxs() == seq(MAXBRANCHES, i => E.ClearedCtx()) && pages[..] == AllOut()
      ensures pc == 0 && npages == 0 && compute == 0 && block == 0
      ensures program == NOPROGRAM && pid == -1 && !active
    {
      pc := 0;
      compute, block := 0, 0;
      program := NOPROGRAM;
      pid := -1;
      ClearContexts();
      npages := 0;
      EmptyPages();
      active := false;
    }

    method ClearContexts()
      requires Structure()
      modifies set c | c in bcontexts, set c | c in bcontexts :: c.brings
      ensures Ctxs() == seq(MAXBRANCHES, i => E.ClearedCtx())
    {
      for i := 0 to MAXBRANCHES
        invariant forall j | 0 <= j < i :: bcontexts[j].Value() == E.ClearedCtx()
      {
        bcontexts[i].Clear();
      }
    }

    /** No page has a frame. */
    method EmptyPages()
      requires Structure()
      modifies pages
      ensures pages[..] == AllOut() && Ctxs() == old(Ctxs())
    {
      var i := 0;
      while i < MAXPROCPAGES
        invariant 0 <= i <= MAXPROCPAGES
        invariant forall j | 0 <= j < i :: pages[j] == OUT
      {
        pages[i] := OUT;
        i := i + 1;
      }
      assert pages[..] == AllOut();
    }

    /** The branch contexts of a process that runs `p`. */
    method InitContexts(p: Program, draws: seq<Draws>)
      requires Structure() && ValidProgram(p) && Ctxs() == seq(MAXBRANCHES, i => E.ClearedCtx())
      requires |draws| >= |p.branches|
      requires forall i | 0 <= i < |p.branches| :: Suffices(p.branches[i], draws[i])
      modifies set c | c in bcontexts, set c | c in bcontexts :: c.brings
      ensures forall i | 0 <= i < |p.branches| :: InitializedBy(p.branches[i], draws[i], Ctxs()[i])
      ensures forall i | |p.branches| <= i < MAXBRANCHES :: Ctxs()[i] == E.ClearedCtx()
    {
      var i := 0;
      while i < |p.branches|
        invariant 0 <= i <= |p.branches|
        invariant forall j | 0 <= j < i :: InitializedBy(p.branches[j], draws[j], bcontexts[j].Value())
        invariant forall j | i <= j < MAXBRANCHES :: bcontexts[j].Value() == E.ClearedCtx()
      {
        bcontexts[i].Init(p.branches[i], draws[i]);
        i := i + 1;
      }
    }

    /** `process_load`, after `Clear`. */
    method Load(p: Program, pid: int, draws: seq<Draws>)
      requires Structure() && ValidProgram(p) && Ctxs() == seq(MAXBRANCHES, i => E.ClearedCtx())
      requires |draws| >= |p.branches|
      requires forall i | 0 <= i < |p.branches| :: Suffices(p.branches[i], draws[i])
      modifies repr
      ensures Valid() && FreshJob(Value()) && this.pid == pid
      ensures program == p && Loaded(p, Ctxs())
      ensures forall i | 0 <= i < |p.branches| :: InitializedBy(p.branches[i], draws[i], Ctxs()[i])
    {
      pc := 0;
      compute, block := 0, 0;
      program := p;
      this.pid := pid;
      InitContexts(p, draws);
      ghost var loaded := Ctxs();
      JustLoaded(p, loaded, draws);
      npages := MAXPROCPAGES;
      assert Ctxs() == loaded;
      EmptyPages();
      active := true;
      assert Ctxs() == loaded;
    }

    /** `process_dobranch`, on branch `i` of the table. */
    method DoBranch(i: nat)
      requires Structure() && Valid() && i < MAXBRANCHES
      modifies repr
      ensures var (take, ctx) := E.Decide(old(Ctxs()[i]));
        && pc == BranchTarget(program, BranchCell(program, i), old(pc), take)
        && Ctxs() == old(Ctxs())[i := ctx]
      ensures Value() == old(Value()).(control := Control(pc, Ctxs()))
      ensures npages == old(npages) && pid == old(pid)
    {
      var take := bcontexts[i].Decide();
      if take {
        pc := BranchCell(program, i).whereto;
      } else {
        pc := pc + 1;
      }
      if pc < 0 || pc >= program.size {
        pc := 0;
      }
    }

    /** `process_step`: whether the process goes on. */
    method Step() returns (goes: bool)
      requires Structure() && Valid()
      modifies repr
      ensures Valid() && (Value(), goes) == StepJob(old(Value()))
      ensures pid == old(pid)
    {
      ghost var j := Value();
      var page := pc / PAGESIZE;
      if !active {
        return false;
      }
      if pages[page] != 0 {
        block := block + 1;
        assert Value() == j.(block := j.block + 1);
        return true;
      }
      assert Timer(j) == 0;
      compute := compute + 1;
      var exit := OnExit(program, pc);
      ghost var j' := Value();
      assert j' == j.(compute := j.compute + 1);
      if exit {
        return false;
      }
      Advance();
      assert Value() == j'.(control := StepControl(j.program, j.control));
      return true;
    }

    /** The rest of `process_step`: the branch at this statement, or else the next statement. */
    method Advance()
      requires Structure() && Valid() && !AtExit(program, pc)
      modifies repr
      ensures Valid()
      ensures Value() == old(Value()).(control := StepControl(old(program), old(Value().control)))
      ensures pid == old(pid)
    {
      var branch := FindBranch(program, pc);
      if branch.Some? {
        DoBranch(branch.value);
      } else {
        pc := pc + 1;
        if pc < 0 || pc > program.size {
          pc := 0;
        }
      }
    }
  }

  /** What loading leaves for one branch. */
  ghost predicate InitializedBy(b: Branch, draws: Draws, c: E.Ctx) {
    && E.ValidCtx(c) && E.Admissible(b, c) && Suffices(b, draws)
    && (b.btype == IF ==> E.CodesDraws(c, draws.coins))
    && (b.btype == FOR || b.btype == NFOR ==> c == E.LoopCtx(b, draws.numbers))
  }

  lemma JustLoaded(p: Program, ctxs: seq<E.Ctx>, draws: seq<Draws>)
    requires ValidProgram(p) && |ctxs| == MAXBRANCHES && |draws| >= |p.branches|
    requires forall i | 0 <= i < |p.branches| :: InitializedBy(p.branches[i], draws[i], ctxs[i])
    requires forall i | |p.branches| <= i < MAXBRANCHES :: ctxs[i] == E.ClearedCtx()
    ensures Loaded(p, ctxs) && ValidControl(p, Control(0, ctxs))
  {
  }
}
