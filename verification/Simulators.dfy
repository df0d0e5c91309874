/**
 The simulator itself: a queue of process objects, processor slots that alias into the
 queue, and the pool of frames, all updated in place.
 */
module Simulators {
  import opened Machine
  import opened Programs
  import opened RunningTime
  import opened Processes
  import opened BranchContexts
  import opened Sums
  import S = Simulation
  import Deadlock
  import opened Effects
  import opened Termination

  class Simulator {
    const queue: seq<Process>
    const processes: array<Process?>
    const queuetype: array<nat>
    const procs: nat
    var queueend: nat
    var pagesavail: int
    ghost const repr: set<object>

    /** The objects the simulator consists of: the processes share nothing. */
    ghost predicate Structure() {
      && this in repr && processes in repr && queuetype in repr
      && processes.Length == MAXPROCESSES && queuetype.Length == QUEUESIZE
      && 0 < procs <= MAXPROCESSES && |queue| == QUEUESIZE
      && (forall k | 0 <= k < |queue| ::
            queue[k].Structure() && queue[k].repr <= repr
            && this !in queue[k].repr && processes !in queue[k].repr && queuetype !in queue[k].repr)
      && (forall k, m | 0 <= k < m < |queue| :: queue[k].repr !! queue[m].repr)
    }

    /** Every process is loaded and knows its queue position; slots refer to the queue. */
    ghost predicate Valid()
      requires Structure()
      reads repr
    {
      && (forall k | 0 <= k < |queue| :: queue[k].Valid() && queue[k].pid == k)
      && (forall i | 0 <= i < procs && processes[i] != null :: processes[i] in queue)
      && (forall i | procs <= i < MAXPROCESSES :: processes[i] == null)
      && queueend <= |queue|
    }

    ghost function Jobs(): (r: seq<S.Job>)
      requires Structure() && Valid()
      reads repr
      ensures |r| == |queue| && forall k | 0 <= k < |queue| :: r[k] == queue[k].Value()
    {
      seq(|queue|, k requires 0 <= k < |queue| && Structure() reads repr => queue[k].Value())
    }

    ghost function Slot(i: nat): (r: Option<nat>)
      requires Structure() && Valid() && i < procs
      reads repr
      ensures r.Some? ==> r.value < |queue| && processes[i] == queue[r.value]
      ensures r.None? ==> processes[i] == null
    {
      if processes[i] == null then None else Some(processes[i].pid)
    }

    ghost function Slots(): (r: seq<Option<nat>>)
      requires Structure() && Valid()
      reads repr
      ensures |r| == procs && forall i | 0 <= i < procs :: r[i] == Slot(i)
    {
      seq(procs, i requires 0 <= i < procs && Structure() && Valid() reads repr => Slot(i))
    }

    /** The state this simulator stands for. */
    ghost function View(): (r: S.State)
      requires Structure() && Valid()
      reads repr
      ensures S.WellFormed(r) && |r.slots| == procs && |r.jobs| == |queue|
    {
      S.State(Jobs(), Slots(), queueend, pagesavail)
    }

    /** Changing one process leaves the others, and the slots, as they were. */
    twostate lemma OneChanged(k: nat)
      requires Structure() && old(Valid()) && k < |queue|
      requires unchanged(repr - queue[k].repr - {this})
      requires queue[k].pid == old(queue[k].pid) && queue[k].Valid() && queueend <= |queue|
      ensures Valid() && Jobs() == old(Jobs())[k := queue[k].Value()] && Slots() == old(Slots())
    {
      forall m | 0 <= m < |queue| && m != k
        ensures queue[m].Value() == old(queue[m].Value()) && queue[m].pid == old(queue[m].pid)
        ensures queue[m].Valid()
      {
      }
      forall i | 0 <= i < procs
        ensures Slot(i) == old(Slot(i))
      {
      }
    }

    /** Changing slots leaves the processes as they were. */
    twostate lemma QueueUnchanged()
      requires Structure() && unchanged(repr - {this, processes})
      ensures forall k | 0 <= k < |queue| ::
        queue[k].Value() == old(queue[k].Value()) && queue[k].pid == old(queue[k].pid)
      ensures forall k | 0 <= k < |queue| && old(queue[k].Valid()) :: queue[k].Valid()
    {
    }

    constructor (procs: nat)
      requires 0 < procs <= MAXPROCESSES
      ensures Structure() && fresh(repr) && this.procs == procs && pagesavail == PHYSICALPAGES
    {
      var all, footprint := MakeQueue();
      var slots := new Process?[MAXPROCESSES];
      var types := new nat[QUEUESIZE];
      queue, processes, queuetype, this.procs := all, slots, types, procs;
      pagesavail := PHYSICALPAGES;
      repr := footprint + {this, slots, types};
    }

    static method MakeQueue() returns (all: seq<Process>, ghost footprint: set<object>)
      ensures |all| == QUEUESIZE && fresh(footprint)
      ensures forall k | 0 <= k < |all| :: all[k].Structure() && all[k].repr <= footprint
      ensures forall k, m | 0 <= k < m < |all| :: all[k].repr !! all[m].repr
    {
      all, footprint := [], {};
      while |all| < QUEUESIZE
        invariant |all| <= QUEUESIZE && fresh(footprint)
        invariant forall k | 0 <= k < |all| :: all[k].Structure() && all[k].repr <= footprint
        invariant forall k, m | 0 <= k < m < |all| :: all[k].repr !! all[m].repr
      {
        var p := new Process();
        all, footprint := all + [p], footprint + p.repr;
      }
    }

    method SetTypes()
      requires Structure()
      modifies queuetype
      ensures queuetype[..] == EvenTypes()
    {
      for i := 0 to QUEUESIZE
        invariant forall m | 0 <= m < i :: queuetype[m] == m % PROGRAMCOUNT
      {
        queuetype[i] := i % PROGRAMCOUNT;
      }
    }

    /** The types of the queue's jobs: as many of each program, shuffled by the draws. */
    method ShuffleTypes(shuffle: seq<nat>, passes: nat)
      requires Structure() && |shuffle| == passes * QUEUESIZE
      modifies queuetype
      ensures queuetype[..] == Shuffled(shuffle, passes)
    {
      SetTypes();
      for repeats := 0 to passes
        invariant queuetype[..] == Shuffled(shuffle, repeats)
      {
        ShufflePass(shuffle, repeats * QUEUESIZE);
      }
    }

    /** One pass over the queue. */
    method ShufflePass(shuffle: seq<nat>, from: nat)
      requires Structure() && from + QUEUESIZE <= |shuffle|
      modifies queuetype
      ensures queuetype[..] == Pass(old(queuetype[..]), shuffle, from, old(|queuetype[..]|))
    {
      ghost var types := queuetype[..];
      for i := 0 to queuetype.Length
        invariant queuetype[..] == Pass(types, shuffle, from, i)
      {
        SwapTypes(i, shuffle[from + i] % QUEUESIZE);
      }
    }

    method SwapTypes(i: nat, j: nat)
      requires i < queuetype.Length && j < queuetype.Length
      modifies queuetype
      ensures queuetype[..] == Swapped(old(queuetype[..]), i, j)
    {
      var temp := queuetype[i];
      queuetype[i] := queuetype[j];
      queuetype[j] := temp;
    }

    /** `initqueue`, for the given random draws. */
    method InitQueue(shuffle: seq<nat>, draws: seq<seq<Draws>>)
      requires Structure() && |shuffle| == PASSES * QUEUESIZE && Plentiful(draws)
      modifies repr
      ensures queuetype[..] == Shuffled(shuffle, PASSES)
      ensures forall k | 0 <= k < |queue| ::
        queue[k].Valid() && queue[k].pid == k && IsLoaded(queue[k].Value(), queuetype[k], draws[k])
      ensures queueend == 0 && pagesavail == old(pagesavail)
    {
      ShuffleTypes(shuffle, PASSES);
      ShuffledIsPermutation(shuffle, PASSES);
      KindsInRange(queuetype[..]);
      LoadQueue(draws);
      queueend := 0;
    }

    /** Every process is cleared and loaded with its program. */
    method LoadQueue(draws: seq<seq<Draws>>)
      requires Structure() && Plentiful(draws) && forall k | 0 <= k < QUEUESIZE :: queuetype[k] < PROGRAMCOUNT
      modifies repr - {this, queuetype}
      ensures forall k | 0 <= k < |queue| ::
        queue[k].Valid() && queue[k].pid == k && IsLoaded(queue[k].Value(), queuetype[k], draws[k])
    {
      ghost var types := queuetype[..];
      ProgramTableIsValid();
      for i := 0 to |queue|
        invariant forall k | 0 <= k < i ::
          queue[k].Valid() && queue[k].pid == k && IsLoaded(queue[k].Value(), types[k], draws[k])
      {
        queue[i].Clear();
        PlentySuffices(PROGRAMS[queuetype[i]], draws[i]);
        queue[i].Load(PROGRAMS[queuetype[i]], i, draws[i]);
        assert IsLoaded(queue[i].Value(), types[i], draws[i]);
      }
    }

    predicate Empty()
      reads this
    {
      queueend >= |queue|
    }

    /** `dequeue`: the next waiting process, if there is one. */
    method Dequeue() returns (p: Process?)
      modifies this`queueend
      ensures if old(queueend) < |queue| then p == queue[old(queueend)] && queueend == old(queueend) + 1
              else p == null && queueend == old(queueend)
    {
      if queueend < |queue| {
        p := queue[queueend];
        queueend := queueend + 1;
      } else {
        p := null;
      }
    }

    /** The slot passes to the next waiting process. */
    method Refill(i: nat)
      requires Structure() && Valid() && i < procs
      modifies this`queueend, processes
      ensures Valid() && View() == S.Refill(old(View()), i)
    {
      ghost var v := View();
      processes[i] := null;
      if !Empty() {
        processes[i] := Dequeue();
      }
      QueueUnchanged();
      assert Jobs() == v.jobs;
      assert Slots() == S.Refill(v, i).slots;
    }

    /** `allinit`: the queue is generated and the first processes enter the slots. */
    method AllInit(shuffle: seq<nat>, draws: seq<seq<Draws>>)
      requires Structure() && |shuffle| == PASSES * QUEUESIZE && Plentiful(draws) && pagesavail == PHYSICALPAGES
      modifies repr
      ensures Valid() && View() == S.Load(Jobs(), procs) && Generated(Jobs())
      ensures queuetype[..] == Shuffled(shuffle, PASSES)
      ensures forall k | 0 <= k < |queue| :: IsLoaded(Jobs()[k], queuetype[k], draws[k])
    {
      InitQueue(shuffle, draws);
      label Generated:
      FillSlots();
      ghost var jobs := Jobs();
      forall k | 0 <= k < |queue|
        ensures IsLoaded(jobs[k], queuetype[k], draws[k])
      {
      }
      AllGenerated(jobs, queuetype[..], draws);
    }

    /** The first processes enter the slots. */
    method FillSlots()
      requires Structure() && queueend == 0 && pagesavail == PHYSICALPAGES
      requires forall k | 0 <= k < |queue| :: queue[k].Valid() && queue[k].pid == k
      modifies this`queueend, processes
      ensures Valid() && View() == S.Load(Jobs(), procs)
      ensures forall k | 0 <= k < |queue| :: queue[k].Value() == old(queue[k].Value())
    {
      for i := 0 to MAXPROCESSES
        modifies processes
        invariant forall m | 0 <= m < i :: processes[m] == null
      {
        processes[i] := null;
      }
      for i := 0 to procs
        invariant queueend == i
        invariant forall m | 0 <= m < i :: processes[m] == queue[m]
        invariant forall m | i <= m < MAXPROCESSES :: processes[m] == null
      {
        if !Empty() {
          processes[i] := Dequeue();
        }
      }
      QueueUnchanged();
      assert Slots() == S.Load(Jobs(), procs).slots;
    }

    /** `process_unload`: every page goes out and gives its frame back. */
    method Unload(p: Process, ghost k: nat)
      requires Structure() && Valid() && k < |queue| && p == queue[k]
      modifies this`pagesavail, p, p.pages
      ensures Valid() && View() == Unloaded(old(View()), k)
    {
      ghost var j := p.Value();
      var n := 0;
      while n < p.npages
        invariant 0 <= n <= p.npages == p.pages.Length
        invariant p.active == j.active && p.pc == j.control.pc && p.compute == j.compute && p.block == j.block
        invariant p.program == j.program && p.pid == old(p.pid)
        invariant forall m | 0 <= m < n :: p.pages[m] == S.OUT
        invariant p.pages[n..] == j.pages[n..]
        invariant pagesavail == old(pagesavail) + S.HeldTo(j.pages, n)
      {
        assert p.pages[n] == j.pages[n];
        if p.pages[n] >= -PAGEWAIT {
          pagesavail := pagesavail + 1;
          p.pages[n] := S.OUT;
        }
        n := n + 1;
      }
      p.active := false;
      assert p.pages[..] == S.AllOut();
      assert p.Ctxs() == old(p.Ctxs());
      assert p.Value() == S.UnloadJob(j);
      OneChanged(k);
    }

    /** The process in a slot makes its step. */
    method StepProcess(p: Process, ghost k: nat) returns (goes: bool)
      requires Structure() && Valid() && k < |queue| && p == queue[k]
      modifies p.repr
      ensures Valid() && goes == S.StepJob(old(View().jobs[k])).1
      ensures View() == S.PutJob(old(View()), k, S.StepJob(old(View().jobs[k])).0)
    {
      goes := p.Step();
      OneChanged(k);
    }

    /** A process that does not go on is unloaded, and its slot passes on. */
    method Replace(p: Process, i: nat, ghost k: nat)
      requires Structure() && Valid() && i < procs && k < |queue| && p == queue[k]
      modifies this, processes, p, p.pages
      ensures Valid()
      ensures View() == S.Refill(if old(p.active) then Unloaded(old(View()), k) else old(View()), i)
    {
      if p.active {
        Unload(p, k);
      }
      Refill(i);
    }

    /** One slot's turn in `allstep`, when it holds a process. */
    method StepHeld(p: Process, i: nat, ghost k: nat)
      requires Structure() && Valid() && i < procs && k < |queue| && p == queue[k] && Slot(i) == Some(k)
      modifies repr
      ensures Valid() && View() == S.StepSlot(old(View()), i)
    {
      ghost var v := View();
      var goes := StepProcess(p, k);
      if goes {
        GoingSlot(v, i, k);
      } else {
        Replace(p, i, k);
        StoppedSlot(v, i, k);
      }
    }

    /** One slot's turn in `allstep`. */
    method StepSlot(i: nat)
      requires Structure() && Valid() && i < procs
      modifies repr
      ensures Valid() && View() == S.StepSlot(old(View()), i)
    {
      var p := processes[i];
      if p == null {
        EmptySlot(View(), i);
        Refill(i);
      } else {
        StepHeld(p, i, Slot(i).value);
      }
    }

    /** The turn of slot `i` after those before it. */
    method StepNext(i: nat, ghost v: S.State)
      requires Structure() && Valid() && i < procs && S.WellFormed(v) && |v.slots| == procs
      requires View() == S.DoTo(v, S.StepOps(procs), i)
      modifies repr
      ensures Valid() && View() == S.DoTo(v, S.StepOps(procs), i + 1)
    {
      OneTurn(v, i);
      StepSlot(i);
    }

    /** `allstep`. */
    method AllStep()
      requires Structure() && Valid()
      modifies repr
      ensures Valid() && View() == S.AllStep(old(View()))
    {
      ghost var v := View();
      WholePass(v);
      for i := 0 to procs
        invariant Valid() && View() == S.DoTo(v, S.StepOps(procs), i)
      {
        StepNext(i, v);
      }
    }

    /** One slot's turn in `allage`. */
    method AgeSlot(i: nat)
      requires Structure() && Valid() && i < procs
      modifies repr
      ensures Valid() && View() == S.AgeSlot(old(View()), i)
    {
      ghost var v := View();
      var p := processes[i];
      if p != null && p.active {
        ghost var k := Slot(i).value;
        ghost var j := p.Value();
        AgePages(p, k);
        assert p.Value() == S.AgeJob(j);
        OneChanged(k);
      }
    }

    /** The page timers of one process tick. */
    method AgePages(p: Process, ghost k: nat)
      requires Structure() && Valid() && k < |queue| && p == queue[k]
      modifies this`pagesavail, p.pages
      ensures p.pages[..] == S.AgePages(old(p.pages[..])) && p.Ctxs() == old(p.Ctxs())
      ensures pagesavail == old(pagesavail) + S.ExpiringTo(old(p.pages[..]), MAXPROCPAGES)
    {
      ghost var was := p.pages[..];
      var n := 0;
      while n < p.npages
        invariant 0 <= n <= p.npages
        invariant forall m | 0 <= m < n :: p.pages[m] == S.AgePage(was[m])
        invariant p.pages[n..] == was[n..]
        invariant pagesavail == old(pagesavail) + S.ExpiringTo(was, n)
      {
        assert p.pages[n] == was[n];
        if p.pages[n] == 0 {
        } else if p.pages[n] < -PAGEWAIT {
        } else if p.pages[n] > 0 {
          p.pages[n] := p.pages[n] - 1;
        } else {
          p.pages[n] := p.pages[n] - 1;
          if p.pages[n] < -PAGEWAIT {
            pagesavail := pagesavail + 1;
          }
        }
        n := n + 1;
      }
      assert p.pages[..] == S.AgePages(was);
    }

    /** The turn of slot `i` after those before it. */
    method AgeNext(i: nat, ghost v: S.State)
      requires Structure() && Valid() && i < procs && S.WellFormed(v) && |v.slots| == procs
      requires View() == S.DoTo(v, S.AgeOps(procs), i)
      modifies repr
      ensures Valid() && View() == S.DoTo(v, S.AgeOps(procs), i + 1)
    {
      OneTurn(v, i);
      AgeSlot(i);
    }

    /** `allage`. */
    method AllAge()
      requires Structure() && Valid()
      modifies repr
      ensures Valid() && View() == S.AllAge(old(View()))
    {
      ghost var v := View();
      WholePass(v);
      for i := 0 to procs
        invariant Valid() && View() == S.DoTo(v, S.AgeOps(procs), i)
      {
        AgeNext(i, v);
      }
    }

    /** `pageout`. */
    method PageOut(process: int, page: int) returns (ok: bool)
      requires Structure() && Valid()
      modifies repr
      ensures Valid() && (View(), ok) == S.PageOut(old(View()), process, page)
    {
      ghost var v := View();
      if process < 0 || process >= procs {
        return false;
      }
      var p := processes[process];
      if p == null || !p.active || page < 0 || page >= p.npages {
        return false;
      }
      ghost var k := Slot(process).value;
      if p.pages[page] < 0 {
        return true;
      }
      if p.pages[page] > 0 {
        return false;
      }
      SetPage(p, page, -1, k);
      return true;
    }

    /** `pagein`. */
    method PageIn(process: int, page: int) returns (ok: bool)
      requires Structure() && Valid()
      modifies repr
      ensures Valid() && (View(), ok) == S.PageIn(old(View()), process, page)
    {
      ghost var v := View();
      if process < 0 || process >= procs {
        return false;
      }
      var p := processes[process];
      if p == null || !p.active || page < 0 || page >= p.npages {
        return false;
      }
      ghost var k := Slot(process).value;
      if p.pages[page] >= 0 {
        return true;
      }
      if pagesavail == 0 {
        return false;
      }
      if p.pages[page] >= -PAGEWAIT {
        return false;
      }
      SetPage(p, page, PAGEWAIT, k);
      TakeFrame();
      return true;
    }

    method TakeFrame()
      requires Structure() && Valid()
      modifies this`pagesavail
      ensures Valid() && View() == old(View()).(avail := old(pagesavail) - 1)
    {
      ghost var v := View();
      pagesavail := pagesavail - 1;
      QueueUnchanged();
      assert Jobs() == v.jobs && Slots() == v.slots;
    }

    method SetPage(p: Process, page: nat, value: int, ghost k: nat)
      requires Structure() && Valid() && k < |queue| && p == queue[k]
      requires page < MAXPROCPAGES && S.ValidPage(value)
      modifies p.pages
      ensures Valid()
      ensures var j := old(View().jobs[k]); View() == S.PutJob(old(View()), k, j.(pages := j.pages[page := value]))
    {
      ghost var j := p.Value();
      p.pages[page] := value;
      assert p.Ctxs() == old(p.Ctxs());
      assert p.Value() == j.(pages := j.pages[page := value]);
      OneChanged(k);
    }

    /** `alldone`. */
    method AllDone() returns (done: bool)
      requires Structure() && Valid()
      ensures done == S.AllDone(View())
    {
      for i := 0 to procs
        invariant forall m | 0 <= m < i :: !S.Occupied(View(), m)
      {
        if processes[i] != null && processes[i].active {
          assert S.Occupied(View(), i);
          return false;
        }
      }
      return true;
    }

    /** `allblocked`: by counting the occupied slots by the state of their current page. */
    method AllBlocked() returns (blocked: bool)
      requires Structure() && Valid()
      ensures blocked == Deadlock.AllBlocked(View())
    {
      var allfree, runnable, memwait, freewait := 0, 0, 0, 0;
      for i := 0 to procs
        invariant allfree >= 0 && runnable >= 0 && memwait >= 0 && freewait >= 0
        invariant (exists m :: 0 <= m < i && OutAt(m)) <==> allfree > 0
        invariant (forall m | 0 <= m < i && S.Occupied(View(), m) :: OutAt(m)) <==> memwait + runnable + freewait == 0
      {
        if processes[i] != null && processes[i].active {
          assert S.Occupied(View(), i);
          var stat := processes[i].pages[processes[i].pc / PAGESIZE];
          assert OutAt(i) <==> stat < -PAGEWAIT;
          if stat > 0 {
            memwait := memwait + 1;
          } else if stat == 0 {
            runnable := runnable + 1;
          } else if stat < -PAGEWAIT {
            allfree := allfree + 1;
          } else {
            freewait := freewait + 1;
          }
        } else {
          assert !S.Occupied(View(), i);
        }
      }
      OutEverywhere();
      blocked := allfree > 0 && memwait == 0 && runnable == 0 && freewait == 0;
    }

    /** The slot is occupied by a job whose current page is out. */
    ghost predicate OutAt(i: nat)
      requires Structure() && Valid() && i < procs
      reads repr
    {
      S.Occupied(View(), i) && S.Timer(View().jobs[View().slots[i].value]) < -PAGEWAIT
    }

    lemma OutEverywhere()
      requires Structure() && Valid()
      ensures Deadlock.AllBlocked(View())
         <==> (exists m :: 0 <= m < procs && OutAt(m)) && forall m | 0 <= m < procs && S.Occupied(View(), m) :: OutAt(m)
    {
      if m: nat :| m < procs && OutAt(m) {
        assert S.Occupied(View(), m);
      }
      if m: nat :| m < procs && S.Occupied(View(), m) && S.Timer(View().jobs[View().slots[m].value]) < -PAGEWAIT {
        assert OutAt(m);
      }
    }

    /** `allscore`. */
    method AllScore() returns (compute: int, block: int)
      requires Structure() && Valid()
      ensures compute == Transparency.Compute(View()) && block == Sum(Transparency.Blocks(View().jobs))
    {
      block, compute := 0, 0;
      for i := 0 to |queue|
        invariant block == SumTo(Transparency.Blocks(View().jobs), i)
        invariant compute == SumTo(Transparency.Computes(View().jobs), i)
      {
        block := block + queue[i].block;
        compute := compute + queue[i].compute;
      }
    }

    /** The snapshot that `callyou` hands to the pager. */
    method Snapshot() returns (entries: seq<Pentry>)
      requires Structure() && Valid()
      ensures |entries| == MAXPROCESSES
      ensures forall i | 0 <= i < MAXPROCESSES ::
        entries[i] == if i < procs then EntryOf(View(), i) else NoEntry()
    {
      entries := [];
      for i := 0 to MAXPROCESSES
        invariant |entries| == i
        invariant forall m | 0 <= m < i :: entries[m] == if m < procs then EntryOf(View(), m) else NoEntry()
      {
        var p := processes[i];
        if p == null {
          entries := entries + [NoEntry()];
        } else {
          var resident := PagesIn(p);
          entries := entries + [Pentry(p.active, p.pc, p.npages, resident)];
        }
      }
    }

    method PagesIn(p: Process) returns (resident: seq<bool>)
      requires p.Structure() && p.Valid()
      ensures resident == Resident(p.Value().pages)
    {
      resident := [];
      for j := 0 to p.npages
        invariant |resident| == j && forall m | 0 <= m < j :: resident[m] == (p.pages[m] == 0)
      {
        resident := resident + [p.pages[j] == 0];
      }
    }
  }

  lemma WholePass(v: S.State)
    requires S.WellFormed(v)
    ensures S.DoTo(v, S.StepOps(|v.slots|), 0) == v && S.DoTo(v, S.AgeOps(|v.slots|), 0) == v
    ensures S.AllStep(v) == S.DoTo(v, S.StepOps(|v.slots|), |v.slots|)
    ensures S.AllAge(v) == S.DoTo(v, S.AgeOps(|v.slots|), |v.slots|)
  {
  }

  lemma EmptySlot(v: S.State, i: nat)
    requires S.WellFormed(v) && i < |v.slots| && v.slots[i].None?
    ensures S.StepSlot(v, i) == S.Refill(v, i)
  {
  }

  lemma GoingSlot(v: S.State, i: nat, k: nat)
    requires S.WellFormed(v) && i < |v.slots| && v.slots[i] == Some(k) && S.StepJob(v.jobs[k]).1
    ensures S.StepSlot(v, i) == S.PutJob(v, k, S.StepJob(v.jobs[k]).0)
  {
  }

  /** Job `k` is unloaded. */
  function Unloaded(v: S.State, k: nat): (r: S.State)
    requires S.WellFormed(v) && k < |v.jobs|
    ensures S.WellFormed(r) && |r.slots| == |v.slots| && |r.jobs| == |v.jobs|
  {
    var j := v.jobs[k];
    S.PutJob(v, k, S.UnloadJob(j)).(avail := v.avail + S.HeldTo(j.pages, |j.pages|))
  }

  /** What `StepSlot` comes to when the process does not go on. */
  lemma StoppedSlot(v: S.State, i: nat, k: nat)
    requires S.WellFormed(v) && i < |v.slots| && v.slots[i] == Some(k) && !S.StepJob(v.jobs[k]).1
    ensures var j := S.StepJob(v.jobs[k]).0; var u := S.PutJob(v, k, j);
      S.StepSlot(v, i) == S.Refill(if j.active then Unloaded(u, k) else u, i)
  {
    var j := S.StepJob(v.jobs[k]).0;
    assert v.jobs[k := j][k := S.UnloadJob(j)] == v.jobs[k := S.UnloadJob(j)];
    assert !j.active ==> v.jobs[k := j] == v.jobs;
  }

  // ---------- What a pager is shown ----------

  datatype Pentry = Pentry(active: bool, pc: int, npages: int, pages: seq<bool>)

  function NoEntry(): Pentry {
    Pentry(false, 0, 0, seq(MAXPROCPAGES, i => false))
  }

  function Resident(pages: seq<int>): (r: seq<bool>)
    ensures |r| == |pages| && forall m | 0 <= m < |pages| :: r[m] == (pages[m] == 0)
  {
    seq(|pages|, m requires 0 <= m < |pages| => pages[m] == 0)
  }

  function JobEntry(j: S.Job): Pentry {
    Pentry(j.active, j.control.pc, MAXPROCPAGES, Resident(j.pages))
  }

  function EntryOf(s: S.State, i: nat): Pentry
    requires S.WellFormed(s) && i < |s.slots|
  {
    if s.slots[i].None? then NoEntry() else JobEntry(s.jobs[s.slots[i].value])
  }

  // ---------- The generated queue ----------

  /** The job types before shuffling. */
  function EvenTypes(): (r: seq<nat>)
    ensures |r| == QUEUESIZE && forall i | 0 <= i < QUEUESIZE :: r[i] == i % PROGRAMCOUNT
  {
    seq(QUEUESIZE, i requires 0 <= i < QUEUESIZE => i % PROGRAMCOUNT)
  }

  /** How often the shuffle goes over the queue. */
  const PASSES := 10

  /** The job types after some passes over the queue. */
  function Shuffled(shuffle: seq<nat>, passes: nat): (r: seq<nat>)
    requires passes * QUEUESIZE <= |shuffle|
    ensures |r| == QUEUESIZE
  {
    if passes == 0 then EvenTypes()
    else
      var types := Shuffled(shuffle, passes - 1);
      Pass(types, shuffle, (passes - 1) * QUEUESIZE, |types|)
  }

  /** The first `n` swaps of a pass: each entry in turn is swapped with a drawn one. */
  function Pass(types: seq<nat>, shuffle: seq<nat>, from: nat, n: nat): (r: seq<nat>)
    requires |types| == QUEUESIZE && n <= |types| && from + n <= |shuffle|
    ensures |r| == |types|
  {
    if n == 0 then types else Swapped(Pass(types, shuffle, from, n - 1), n - 1, shuffle[from + n - 1] % QUEUESIZE)
  }

  function Swapped(types: seq<nat>, i: nat, j: nat): (r: seq<nat>)
    requires i < |types| && j < |types|
    ensures |r| == |types|
  {
    types[i := types[j]][j := types[i]]
  }

  lemma SwappedIsPermutation(types: seq<nat>, i: nat, j: nat)
    requires i < |types| && j < |types|
    ensures multiset(Swapped(types, i, j)) == multiset(types)
  {
  }

  lemma {:induction false} PassIsPermutation(types: seq<nat>, shuffle: seq<nat>, from: nat, n: nat)
    requires |types| == QUEUESIZE && n <= |types| && from + n <= |shuffle|
    ensures multiset(Pass(types, shuffle, from, n)) == multiset(types)
  {
    if n > 0 {
      PassIsPermutation(types, shuffle, from, n - 1);
      SwappedIsPermutation(Pass(types, shuffle, from, n - 1), n - 1, shuffle[from + n - 1] % QUEUESIZE);
    }
  }

  lemma {:induction false} ShuffledIsPermutation(shuffle: seq<nat>, passes: nat)
    requires passes * QUEUESIZE <= |shuffle|
    ensures multiset(Shuffled(shuffle, passes)) == multiset(EvenTypes())
  {
    if passes > 0 {
      ShuffledIsPermutation(shuffle, passes - 1);
      var types := Shuffled(shuffle, passes - 1);
      PassIsPermutation(types, shuffle, (passes - 1) * QUEUESIZE, |types|);
    }
  }

  /** Draws for every branch that any program could have at any queue position. */
  ghost predicate Plentiful(draws: seq<seq<Draws>>) {
    && |draws| == QUEUESIZE
    && forall k | 0 <= k < QUEUESIZE ::
         |draws[k]| == MAXBRANCHES && forall b | 0 <= b < |draws[k]| :: Plenty(draws[k][b])
  }

  ghost predicate Plenty(d: Draws) {
    E.Alternations(d.coins, |d.coins|) >= MAXBRINGS && |d.numbers| >= MAXBRINGS / 2
  }

  lemma PlentySuffices(p: Program, draws: seq<Draws>)
    requires ValidProgram(p) && |draws| == MAXBRANCHES && forall b | 0 <= b < |draws| :: Plenty(draws[b])
    ensures forall i | 0 <= i < |p.branches| :: Suffices(p.branches[i], draws[i])
  {
  }

  lemma KindsInRange(types: seq<nat>)
    requires multiset(types) == multiset(EvenTypes())
    ensures forall k | 0 <= k < |types| :: types[k] < PROGRAMCOUNT
  {
    forall k | 0 <= k < |types|
      ensures types[k] < PROGRAMCOUNT
    {
      assert types[k] in multiset(EvenTypes());
    }
  }

  /** A job of a kind, as loading leaves it. */
  ghost predicate IsLoaded(j: S.Job, kind: nat, draws: seq<Draws>) {
    && kind < |PROGRAMS| && j.program == PROGRAMS[kind] && S.FreshJob(j) && Loaded(j.program, j.control.ctxs)
    && |j.program.branches| <= |draws|
    && forall i | 0 <= i < |j.program.branches| ::
         InitializedBy(j.program.branches[i], draws[i], j.control.ctxs[i])
  }

  lemma AllGenerated(jobs: seq<S.Job>, types: seq<nat>, draws: seq<seq<Draws>>)
    requires |jobs| == |types| == |draws|
    requires forall k | 0 <= k < |jobs| :: IsLoaded(jobs[k], types[k], draws[k])
    ensures Generated(jobs)
  {
    forall k | 0 <= k < |jobs|
      ensures GeneratedJob(jobs[k])
    {
      assert IsKind(jobs[k], types[k]);
    }
  }

  /** Shuffling leaves eight jobs of each program. */
  lemma EightOfEach(shuffle: seq<nat>, kind: nat)
    requires kind < PROGRAMCOUNT && |shuffle| == PASSES * QUEUESIZE
    ensures multiset(Shuffled(shuffle, PASSES))[kind] == 8
  {
    ShuffledIsPermutation(shuffle, PASSES);
    CountOfKind(EvenTypes(), 8, QUEUESIZE, kind);
    assert EvenTypes()[..QUEUESIZE] == EvenTypes();
  }

  lemma {:induction false} CountOfKind(types: seq<nat>, rounds: nat, n: nat, kind: nat)
    requires kind < PROGRAMCOUNT && n == rounds * PROGRAMCOUNT <= |types|
    requires forall i | 0 <= i < |types| :: types[i] == i % PROGRAMCOUNT
    ensures multiset(types[..n])[kind] == rounds
  {
    if rounds > 0 {
      CountOfKind(types, rounds - 1, n - PROGRAMCOUNT, kind);
      NextFive(types, n - PROGRAMCOUNT);
      OneOfEach(types[..n - PROGRAMCOUNT], kind);
    }
  }

  lemma NextFive(types: seq<nat>, n: nat)
    requires n % PROGRAMCOUNT == 0 && n + PROGRAMCOUNT <= |types|
    requires forall i | 0 <= i < |types| :: types[i] == i % PROGRAMCOUNT
    ensures types[..n + PROGRAMCOUNT] == types[..n] + [0, 1, 2, 3, 4]
  {
  }

  lemma OneOfEach(types: seq<nat>, kind: nat)
    requires kind < PROGRAMCOUNT
    ensures multiset(types + [0, 1, 2, 3, 4])[kind] == multiset(types)[kind] + 1
  {
    assert multiset([0, 1, 2, 3, 4])[kind] == 1;
  }

  /** The draws determine every job. */
  lemma DrawsDetermineJob(j: S.Job, j': S.Job, kind: nat, draws: seq<Draws>)
    requires IsLoaded(j, kind, draws) && IsLoaded(j', kind, draws)
    ensures j == j'
  {
    var cs, cs' := j.control.ctxs, j'.control.ctxs;
    var bs := j.program.branches;
    forall i | 0 <= i < MAXBRANCHES
      ensures cs[i] == cs'[i]
    {
      if i < |bs| {
        DrawsDetermineContext(bs[i], draws[i], cs[i], cs'[i]);
      }
    }
    assert cs == cs';
  }

  lemma DrawsDetermineContext(b: Branch, draws: Draws, c: E.Ctx, c': E.Ctx)
    requires InitializedBy(b, draws, c) && InitializedBy(b, draws, c')
    ensures c == c'
  {
    if b.btype == IF {
      E.DrawsDetermineCode(c, c', draws.coins);
    }
  }
}
