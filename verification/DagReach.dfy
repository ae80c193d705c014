/**
 Concrete runs: one block makes several steps in a row, and states that can be
 reached by such walks.
 */
module DagReach {
  import opened DagModel

  function SchedMany(c: Config, m: Shared, s: nat, pc: SchedPc, k: nat): (Shared, SchedPc)
    decreases k
  {
    if k == 0 then (m, pc)
    else var (m', pc') := SchedNext(c, m, s, pc); SchedMany(c, m', s, pc', k - 1)
  }

  function WorkerMany(c: Config, m: Shared, w: nat, pc: WorkerPc, k: nat): (Shared, WorkerPc)
    decreases k
  {
    if k == 0 then (m, pc)
    else var (m', pc') := WorkerNext(c, m, w, pc); WorkerMany(c, m', w, pc', k - 1)
  }

  /** State `st'` can be reached from `st`. */
  ghost predicate Reaches(c: Config, st: State, st': State) {
    exists schedule :: Run(c, st, schedule) == st'
  }

  lemma RunNext(c: Config, st: State, schedule: seq<Actor>, a: Actor)
    ensures Run(c, st, schedule + [a]) == Step(c, Run(c, st, schedule), a)
  {
    assert (schedule + [a])[..|schedule|] == schedule;
  }

  lemma {:induction false} RunAppend(c: Config, st: State, a: seq<Actor>, b: seq<Actor>)
    ensures Run(c, st, a + b) == Run(c, Run(c, st, a), b)
    decreases |b|
  {
    if b == [] {
      assert a + b == a;
    } else {
      var n := |b| - 1;
      RunAppend(c, st, a, b[..n]);
      RunNext(c, st, a + b[..n], b[n]);
      RunNext(c, Run(c, st, a), b[..n], b[n]);
      assert a + b == a + b[..n] + [b[n]] && b == b[..n] + [b[n]];
    }
  }

  lemma ReachesTransitive(c: Config, st1: State, st2: State, st3: State)
    requires Reaches(c, st1, st2) && Reaches(c, st2, st3)
    ensures Reaches(c, st1, st3)
  {
    var a :| Run(c, st1, a) == st2;
    var b :| Run(c, st2, b) == st3;
    RunAppend(c, st1, a, b);
  }

  lemma ReachesStep(c: Config, st: State, a: Actor)
    ensures Reaches(c, st, Step(c, st, a))
  {
    assert Run(c, st, []) == st;
    assert Run(c, st, [a]) == Step(c, st, a);
  }

  lemma ReachesSelf(c: Config, st: State)
    ensures Reaches(c, st, st)
  {
    assert Run(c, st, []) == st;
  }

  lemma {:induction false} SchedReaches(c: Config, st: State, s: nat, k: nat)
    requires s < |st.scheds|
    ensures var (m, pc) := SchedMany(c, st.m, s, st.scheds[s], k);
      Reaches(c, st, State(m, st.scheds[s := pc], st.workers))
    decreases k
  {
    if k == 0 {
      assert st.scheds[s := st.scheds[s]] == st.scheds;
      ReachesSelf(c, st);
    } else {
      var st' := Step(c, st, Sched(s));
      ReachesStep(c, st, Sched(s));
      SchedReaches(c, st', s, k - 1);
      var (m, pc) := SchedMany(c, st.m, s, st.scheds[s], k);
      assert st'.scheds[s := pc] == st.scheds[s := pc];
      ReachesTransitive(c, st, st', State(m, st.scheds[s := pc], st.workers));
    }
  }

  lemma {:induction false} WorkerReaches(c: Config, st: State, w: nat, k: nat)
    requires w < |st.workers|
    ensures var (m, pc) := WorkerMany(c, st.m, w, st.workers[w], k);
      Reaches(c, st, State(m, st.scheds, st.workers[w := pc]))
    decreases k
  {
    if k == 0 {
      assert st.workers[w := st.workers[w]] == st.workers;
      ReachesSelf(c, st);
    } else {
      var st' := Step(c, st, Worker(w));
      ReachesStep(c, st, Worker(w));
      WorkerReaches(c, st', w, k - 1);
      var (m, pc) := WorkerMany(c, st.m, w, st.workers[w], k);
      assert st'.workers[w := pc] == st.workers[w := pc];
      ReachesTransitive(c, st, st', State(m, st.scheds, st.workers[w := pc]));
    }
  }

  /** One step inside a longer walk. */
  lemma OneStep(c: Config, m: Shared, s: nat, pc: SchedPc, m': Shared, pc': SchedPc, k: nat)
    requires k > 0 && SchedNext(c, m, s, pc) == (m', pc')
    ensures SchedMany(c, m, s, pc, k) == SchedMany(c, m', s, pc', k - 1)
  {
  }

  lemma OneWorkerStep(c: Config, m: Shared, w: nat, pc: WorkerPc, m': Shared, pc': WorkerPc, k: nat)
    requires k > 0 && WorkerNext(c, m, w, pc) == (m', pc')
    ensures WorkerMany(c, m, w, pc, k) == WorkerMany(c, m', w, pc', k - 1)
  {
  }

  lemma Advance(c: Config, st: State, s: nat, k: nat, m: Shared, pc: SchedPc) returns (st': State)
    requires Reaches(c, Init(c), st) && s < |st.scheds| && SchedMany(c, st.m, s, st.scheds[s], k) == (m, pc)
    ensures st' == State(m, st.scheds[s := pc], st.workers) && Reaches(c, Init(c), st')
  {
    st' := State(m, st.scheds[s := pc], st.workers);
    SchedReaches(c, st, s, k);
    ReachesTransitive(c, Init(c), st, st');
  }

  lemma AdvanceWorker(c: Config, st: State, w: nat, k: nat, m: Shared, pc: WorkerPc) returns (st': State)
    requires Reaches(c, Init(c), st) && w < |st.workers| && WorkerMany(c, st.m, w, st.workers[w], k) == (m, pc)
    ensures st' == State(m, st.scheds, st.workers[w := pc]) && Reaches(c, Init(c), st')
  {
    st' := State(m, st.scheds, st.workers[w := pc]);
    WorkerReaches(c, st, w, k);
    ReachesTransitive(c, Init(c), st, st');
  }
}
