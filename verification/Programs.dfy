/** Programs as tables of branches and exits, and the five programs the simulator runs. */
module Programs {
  import opened Machine

  datatype BranchType = GOTO | FOR | NFOR | IF

  /** The `prob` of an IF only shapes its random draws and `extent` is never read. */
  datatype Branch = Branch(wherefrom: int, whereto: int, btype: BranchType, min: int, max: int)

  datatype Program = Program(size: int, branches: seq<Branch>, exits: seq<int>)

  /** What the two binary searches and the page computation rely on. */
  ghost predicate ValidProgram(p: Program) {
    && 0 <= p.size < MAXPC
    && |p.branches| < MAXBRANCHES
    && 1 <= |p.exits| <= MAXEXITS
    && (forall i, j | 0 <= i < j < |p.branches| :: p.branches[i].wherefrom < p.branches[j].wherefrom)
    && (forall i, j | 0 <= i < j < |p.exits| :: p.exits[i] < p.exits[j])
  }

  /** The statement at `pc` is a halt. */
  predicate AtExit(p: Program, pc: int) {
    pc in p.exits
  }

  /** A left-to-right scan of the branch table. */
  function ScanBranches(bs: seq<Branch>, pc: int): (r: Option<nat>)
    ensures r.Some? ==> r.value < |bs| && bs[r.value].wherefrom == pc
    ensures r.None? ==> forall i | 0 <= i < |bs| :: bs[i].wherefrom != pc
  {
    if |bs| == 0 then None
    else if bs[|bs| - 1].wherefrom == pc then Some(|bs| - 1)
    else ScanBranches(bs[..|bs| - 1], pc)
  }

  /** The cell of the fixed-size branch array, zero-initialised beyond the table. */
  function BranchCell(p: Program, i: nat): Branch {
    if i < |p.branches| then p.branches[i] else Branch(0, 0, GOTO, 0, 0)
  }

  /**
   The branch taken at `pc`, if any. A program without branches still compares
   `pc` with the first, zero-initialised cell, so statement 0 is then a branch.
   */
  function BranchAt(p: Program, pc: int): (r: Option<nat>)
    ensures r.Some? ==> r.value <= |p.branches| && BranchCell(p, r.value).wherefrom == pc
    ensures r.Some? && |p.branches| > 0 ==> r.value < |p.branches|
    ensures r.None? ==> forall i | 0 <= i < |p.branches| :: p.branches[i].wherefrom != pc
  {
    if |p.branches| > 0 then ScanBranches(p.branches, pc)
    else if pc == 0 then Some(0)
    else None
  }

  /** In a sorted table the branch at a statement is the one with that `wherefrom`. */
  lemma BranchIndex(p: Program, pc: int, i: nat)
    requires ValidProgram(p) && i < |p.branches| && p.branches[i].wherefrom == pc
    ensures BranchAt(p, pc) == Some(i)
  {
  }

  const LOOP_WITH_INNER_BRANCH :=
    Program(1535, [Branch(500, 1402, IF, 0, 0), Branch(1401, 1533, GOTO, 0, 0), Branch(1533, 0, FOR, 10, 30)], [1534])
  const ONE_LOOP :=
    Program(1131, [Branch(1129, 0, FOR, 20, 50)], [1130])
  const DOUBLY_NESTED_LOOP :=
    Program(1685, [Branch(1682, 1166, FOR, 10, 20), Branch(1683, 0, FOR, 10, 20)], [1684])
  const LINEAR :=
    Program(1912, [], [1911])
  const BACKWARD_BRANCH :=
    Program(505,
            [Branch(500, 503, IF, 0, 0), Branch(501, 0, GOTO, 0, 0), Branch(502, 503, GOTO, 0, 0),
             Branch(503, 0, FOR, 10, 20)],
            [504])

  const PROGRAMS: seq<Program> := [LOOP_WITH_INNER_BRANCH, ONE_LOOP, DOUBLY_NESTED_LOOP, LINEAR, BACKWARD_BRANCH]

  lemma ProgramTableIsValid()
    ensures |PROGRAMS| == PROGRAMCOUNT
    ensures forall i | 0 <= i < |PROGRAMS| :: ValidProgram(PROGRAMS[i])
  {
    assert ValidProgram(LOOP_WITH_INNER_BRANCH);
    assert ValidProgram(ONE_LOOP);
    assert ValidProgram(DOUBLY_NESTED_LOOP);
    assert ValidProgram(LINEAR);
    assert ValidProgram(BACKWARD_BRANCH);
  }
}
