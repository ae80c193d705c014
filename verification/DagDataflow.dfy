/**
 Concurrent execution refines sequential evaluation: a clean finish, in any
 interleaving, leaves the device buffers exactly as running the tasks one after
 the other in any topological order does.
 */
module DagDataflow {
  import opened TicketRing
  import opened DagModel
  import opened DagInvariant
  import opened DagSteps
  import opened DagTheorems
  import opened DagEvents
  import opened Arithmetic

  /**
   Every output buffer belongs to one task, and a task that reads the output of
   another task is one of its dependents.
   */
  ghost predicate Dataflow(c: Config) {
    && (forall p :: 0 <= p < N(c) ==> c.tasks[p].out < |c.memory0|)
    && (forall p, q :: 0 <= p < N(c) && 0 <= q < N(c) && p != q ==> c.tasks[p].out != c.tasks[q].out)
    && (forall p, q :: 0 <= p < N(c) && 0 <= q < N(c) && c.tasks[q].out in c.tasks[p].ins ==> p in Deps(c, q))
  }

  function Args(ins: seq<nat>, mem: seq<Buffer>): (r: seq<Buffer>)
    ensures |r| == |ins| && forall i :: 0 <= i < |ins| ==> r[i] == BufferAt(mem, ins[i])
  {
    seq(|ins|, i requires 0 <= i < |ins| => BufferAt(mem, ins[i]))
  }

  /** Writing a buffer that is not read leaves the arguments alone. */
  lemma ArgsKept(ins: seq<nat>, mem: seq<Buffer>, b: nat, v: Buffer)
    requires b !in ins
    ensures Args(ins, Store(mem, b, v)) == Args(ins, mem)
  {
    forall i | 0 <= i < |ins| ensures Args(ins, Store(mem, b, v))[i] == Args(ins, mem)[i] {
      assert ins[i] != b;
    }
  }

  // -------------------------------------------------------------------------
  // Solutions of the dataflow equations
  // -------------------------------------------------------------------------

  /** The output of task `p` is its body applied to the present contents of its inputs. */
  ghost predicate Computed(c: Config, mem: seq<Buffer>, p: nat)
    requires p < N(c)
  {
    BufferAt(mem, c.tasks[p].out) == c.body(c.tasks[p], Args(c.tasks[p].ins, mem))
  }

  /** Exactly the tasks in `ran` have written, each according to its equation. */
  ghost predicate SolvesFor(c: Config, mem: seq<Buffer>, ran: set<nat>) {
    && |mem| == |c.memory0|
    && (forall p :: 0 <= p < N(c) && p in ran ==> Computed(c, mem, p))
    && (forall b :: 0 <= b < |mem| ==>
          (forall p :: 0 <= p < N(c) && p in ran ==> c.tasks[p].out != b) ==> mem[b] == c.memory0[b])
  }

  ghost predicate Solves(c: Config, mem: seq<Buffer>) {
    SolvesFor(c, mem, UpTo(N(c)))
  }

  function Execute(c: Config, mem: seq<Buffer>, p: nat): seq<Buffer> {
    Store(mem, TaskAt(c, p).out, c.body(TaskAt(c, p), Args(TaskAt(c, p).ins, mem)))
  }

  /** Executing one more task extends the solution if no task of `ran` depends on it. */
  lemma ExecuteSolves(c: Config, mem: seq<Buffer>, ran: set<nat>, p: nat)
    requires Dataflow(c) && SolvesFor(c, mem, ran) && p < N(c) && p !in ran
    requires p !in Deps(c, p) && forall q :: 0 <= q < N(c) && q in ran ==> q !in Deps(c, p)
    ensures SolvesFor(c, Execute(c, mem, p), ran + {p})
  {
    var mem' := Execute(c, mem, p);
    forall q | 0 <= q < N(c) && q in ran + {p} ensures Computed(c, mem', q) {
      ArgsKept(c.tasks[q].ins, mem, c.tasks[p].out, c.body(c.tasks[p], Args(c.tasks[p].ins, mem)));
    }
    forall b | 0 <= b < |mem'| && (forall q :: 0 <= q < N(c) && q in ran + {p} ==> c.tasks[q].out != b)
      ensures mem'[b] == c.memory0[b]
    {
      assert c.tasks[p].out != b;
      assert forall q :: 0 <= q < N(c) && q in ran ==> c.tasks[q].out != b;
    }
  }

  // -------------------------------------------------------------------------
  // Sequential evaluation
  // -------------------------------------------------------------------------

  /** The buffers after the first `k` tasks of `order` have been executed one by one. */
  function Sequential(c: Config, order: seq<nat>, k: nat): seq<Buffer>
    requires k <= |order|
  {
    if k == 0 then c.memory0 else Execute(c, Sequential(c, order, k - 1), order[k - 1])
  }

  ghost function FirstTasks(order: seq<nat>, k: nat): set<nat>
    requires k <= |order|
  {
    set i | 0 <= i < k :: order[i]
  }

  lemma {:induction false} SequentialSolvesPrefix(c: Config, order: seq<nat>, k: nat)
    requires Dataflow(c) && Topological(c, order) && k <= |order|
    ensures SolvesFor(c, Sequential(c, order, k), FirstTasks(order, k))
  {
    if k > 0 {
      SequentialSolvesPrefix(c, order, k - 1);
      var p := order[k - 1];
      forall q | 0 <= q < N(c) && q in FirstTasks(order, k - 1) ensures q !in Deps(c, p) {
        var i :| 0 <= i < k - 1 && order[i] == q;
      }
      assert p !in FirstTasks(order, k - 1);
      ExecuteSolves(c, Sequential(c, order, k - 1), FirstTasks(order, k - 1), p);
      assert FirstTasks(order, k) == FirstTasks(order, k - 1) + {p};
    }
  }

  lemma AllTasks(c: Config, order: seq<nat>)
    requires Topological(c, order)
    ensures FirstTasks(order, |order|) == UpTo(N(c))
  {
    DistinctSize(order);
    assert FirstTasks(order, |order|) == Members(order);
    SubsetSize(Members(order), UpTo(N(c)));
  }

  lemma SequentialSolves(c: Config, order: seq<nat>)
    requires Dataflow(c) && Topological(c, order)
    ensures Solves(c, Sequential(c, order, |order|))
  {
    SequentialSolvesPrefix(c, order, |order|);
    AllTasks(c, order);
  }

  ghost predicate Writes(c: Config, q: nat, b: nat) {
    q < N(c) && c.tasks[q].out == b
  }

  lemma ExternalKept(c: Config, mem: seq<Buffer>, b: nat)
    requires Solves(c, mem) && forall q :: !Writes(c, q, b)
    ensures BufferAt(mem, b) == BufferAt(c.memory0, b)
  {
    if b < |mem| {
      forall p | 0 <= p < N(c) && p in UpTo(N(c)) ensures c.tasks[p].out != b {
        assert !Writes(c, p, b);
      }
    }
  }

  lemma {:induction false} SolutionsAgree(c: Config, order: seq<nat>, mem1: seq<Buffer>, mem2: seq<Buffer>, k: nat)
    requires Dataflow(c) && Topological(c, order) && Solves(c, mem1) && Solves(c, mem2) && k < |order|
    ensures BufferAt(mem1, c.tasks[order[k]].out) == BufferAt(mem2, c.tasks[order[k]].out)
    decreases k, 1
  {
    var p := order[k];
    var ins := c.tasks[p].ins;
    forall i | 0 <= i < |ins| ensures BufferAt(mem1, ins[i]) == BufferAt(mem2, ins[i]) {
      InputsAgree(c, order, mem1, mem2, k, i);
    }
    assert Args(ins, mem1) == Args(ins, mem2);
    assert Computed(c, mem1, p) && Computed(c, mem2, p);
  }

  lemma {:induction false} InputsAgree(
    c: Config, order: seq<nat>, mem1: seq<Buffer>, mem2: seq<Buffer>, k: nat, i: nat)
    requires Dataflow(c) && Topological(c, order) && Solves(c, mem1) && Solves(c, mem2)
    requires k < |order| && i < |c.tasks[order[k]].ins|
    ensures var b := c.tasks[order[k]].ins[i]; BufferAt(mem1, b) == BufferAt(mem2, b)
    decreases k, 0
  {
    var b := c.tasks[order[k]].ins[i];
    if q :| Writes(c, q, b) {
      var a := PlaceOf(c, order, q);
      assert order[k] in Deps(c, q);
      SolutionsAgree(c, order, mem1, mem2, a);
    } else {
      ExternalKept(c, mem1, b);
      ExternalKept(c, mem2, b);
    }
  }

  /** The dataflow equations of an acyclic graph have only one solution. */
  lemma SolutionIsUnique(c: Config, order: seq<nat>, mem1: seq<Buffer>, mem2: seq<Buffer>)
    requires Dataflow(c) && Topological(c, order) && Solves(c, mem1) && Solves(c, mem2)
    ensures mem1 == mem2
  {
    forall b: nat | b < |mem1| ensures BufferAt(mem1, b) == BufferAt(mem2, b) {
      if q :| Writes(c, q, b) {
        var a := PlaceOf(c, order, q);
        SolutionsAgree(c, order, mem1, mem2, a);
      } else {
        ExternalKept(c, mem1, b);
        ExternalKept(c, mem2, b);
      }
    }
    assert forall b :: 0 <= b < |mem1| ==> mem1[b] == BufferAt(mem1, b) && mem2[b] == BufferAt(mem2, b);
  }

  // -------------------------------------------------------------------------
  // The concurrent run
  // -------------------------------------------------------------------------

  ghost predicate LoadedOk(c: Config, mem: seq<Buffer>, pc: WorkerPc) {
    (pc.WLoad? || pc.WStore?) && pc.v < N(c) ==>
      && |pc.args| <= |c.tasks[pc.v].ins|
      && (pc.WStore? ==> |pc.args| == |c.tasks[pc.v].ins|)
      && (forall i :: 0 <= i < |pc.args| ==> pc.args[i] == BufferAt(mem, c.tasks[pc.v].ins[i]))
  }

  ghost predicate MemInv(c: Config, st: State) {
    && SolvesFor(c, st.m.mem, st.m.h.ran)
    && (forall w :: 0 <= w < |st.workers| ==> LoadedOk(c, st.m.mem, st.workers[w]))
  }

  /** No running task, and no task that has run, reads the output of a task that has not. */
  lemma NobodyReads(c: Config, m: Shared, p: nat, q: nat)
    requires Global(c, m) && ExactFanin(c) && Dataflow(c) && p < N(c) && p !in m.h.ran && q in m.h.published
    ensures q !in Deps(c, p) && c.tasks[p].out !in c.tasks[q].ins
  {
    PublishedIsReady(c, m, q);
  }

  lemma LoadedStable(c: Config, m: Shared, p: nat, value: Buffer, w: nat, pc: WorkerPc)
    requires Global(c, m) && ExactFanin(c) && Dataflow(c) && p < N(c) && p !in m.h.ran
    requires WorkerInv(c, m, w, pc) && LoadedOk(c, m.mem, pc)
    ensures LoadedOk(c, Store(m.mem, c.tasks[p].out, value), pc)
  {
    if (pc.WLoad? || pc.WStore?) && pc.v < N(c) {
      NobodyReads(c, m, p, pc.v);
      forall i | 0 <= i < |pc.args|
        ensures pc.args[i] == BufferAt(Store(m.mem, c.tasks[p].out, value), c.tasks[pc.v].ins[i])
      {
        assert c.tasks[pc.v].ins[i] != c.tasks[p].out;
      }
    }
  }

  lemma StoreSolves(c: Config, m: Shared, w: nat, pc: WorkerPc)
    requires Global(c, m) && ExactFanin(c) && Dataflow(c) && SolvesFor(c, m.mem, m.h.ran)
    requires WorkerInv(c, m, w, pc) && LoadedOk(c, m.mem, pc) && pc.WStore?
    ensures var m' := StoreOutput(c, m, pc.v, pc.args); SolvesFor(c, m'.mem, m'.h.ran)
  {
    var p := pc.v;
    forall q | q in m.h.ran ensures q !in Deps(c, p) {
      NobodyReads(c, m, p, q);
    }
    NobodyReads(c, m, p, p);
    ExecuteSolves(c, m.mem, m.h.ran, p);
    assert pc.args == Args(c.tasks[p].ins, m.mem);
  }

  lemma SchedKeepsMemory(c: Config, m: Shared, s: nat, pc: SchedPc)
    ensures SchedNext(c, m, s, pc).0.mem == m.mem && SchedNext(c, m, s, pc).0.h.ran == m.h.ran
  {
  }

  lemma WorkerKeepsMemory(c: Config, m: Shared, w: nat, pc: WorkerPc)
    requires !pc.WStore? && LoadedOk(c, m.mem, pc)
    ensures var (m', pc') := WorkerNext(c, m, w, pc);
      m'.mem == m.mem && m'.h.ran == m.h.ran && LoadedOk(c, m.mem, pc')
  {
  }

  lemma MemStepOk(c: Config, st: State, a: Actor)
    requires Inv(c, st) && MemInv(c, st) && ExactFanin(c) && Dataflow(c)
    ensures MemInv(c, Step(c, st, a))
  {
    match a {
      case Sched(s) =>
        if s < |st.scheds| {
          SchedKeepsMemory(c, st.m, s, st.scheds[s]);
        }
      case Worker(w) =>
        if w < |st.workers| {
          var pc := st.workers[w];
          assert WorkerInv(c, st.m, w, pc);
          if pc.WStore? {
            StoreSolves(c, st.m, w, pc);
            var st' := Step(c, st, a);
            forall u | 0 <= u < |st.workers| && u != w ensures LoadedOk(c, st'.m.mem, st'.workers[u]) {
              LoadedStable(c, st.m, pc.v, c.body(c.tasks[pc.v], pc.args), u, st.workers[u]);
            }
          } else {
            WorkerKeepsMemory(c, st.m, w, pc);
          }
        }
    }
  }

  lemma {:induction false} MemRunOk(c: Config, schedule: seq<Actor>)
    requires Launchable(c) && ExactFanin(c) && Dataflow(c)
    ensures MemInv(c, Run(c, Init(c), schedule))
    decreases |schedule|
  {
    if schedule != [] {
      var before := schedule[..|schedule| - 1];
      MemRunOk(c, before);
      RunOk(c, before);
      MemStepOk(c, Run(c, Init(c), before), schedule[|schedule| - 1]);
    }
  }

  /**
   Every clean finish, in any interleaving, on any number of blocks and for any
   task table whose edges cover its data flow, leaves the device buffers as
   the sequential evaluation in any topological order does.
   */
  lemma ConcurrentRefinesSequential(c: Config, schedule: seq<Actor>, order: seq<nat>)
    requires Launchable(c) && Dataflow(c) && Topological(c, order)
    requires CleanFinish(c, Run(c, Init(c), schedule).m)
    ensures Run(c, Init(c), schedule).m.mem == Sequential(c, order, |order|)
  {
    CleanFinishCertifies(c, schedule);
    MemRunOk(c, schedule);
    RunOk(c, schedule);
    var m := Run(c, Init(c), schedule).m;
    EverythingDone(c, m);
    assert Solves(c, m.mem);
    SequentialSolves(c, order);
    SolutionIsUnique(c, order, m.mem, Sequential(c, order, |order|));
  }
}
