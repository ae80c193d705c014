/**
 What a recorded error says is true: in every run on any number of blocks, the
 code and the task id name a defect that the task table really has.  Only the
 stall code 7 claims no more than that the task is waiting for others.
 */
module DagDiagnosis {
  import opened DagModel
  import opened DagInvariant
  import opened DagPreserve
  import opened DagSteps
  import opened DagTheorems
  import opened Arithmetic

  predicate Lists(c: Config, p: nat, d: nat) {
    d in Deps(c, p)
  }

  predicate Repeats(c: Config, p: nat, d: nat) {
    exists i :: 0 <= i < |Deps(c, p)| && Deps(c, p)[i] == d && d in Deps(c, p)[..i]
  }

  predicate Source(c: Config, j: nat) {
    j < N(c) && j < |c.fanin0| && c.fanin0[j] == 0 && c.tasks[j].initialFanin == 0
  }

  /** The defect that each error code reports. */
  ghost predicate Defect(c: Config, code: nat, task: nat) {
    match code
    case 1 => task < N(c) && c.tasks[task].funcId !in c.registered
    case 2 => task >= N(c) && exists p: nat :: p < N(c) && Lists(c, p, task)
    case 3 => task < N(c) && !InBounds(c, task)
    case 4 => task < N(c) && |c.fanin0| == N(c) && c.fanin0[task] < |Preds(c, task)|
    case 5 => task < N(c) && |c.fanin0| == N(c) && c.fanin0[task] != c.tasks[task].initialFanin
    case 6 => task == 0 && N(c) > 0 && forall j: nat :: !Source(c, j)
    case 7 => task < N(c) && |c.fanin0| == N(c) && c.fanin0[task] > 0
    case 8 => exists p: nat :: p < N(c) && Repeats(c, p, task)
    case 9 => task < N(c) && Lists(c, task, task)
    case _ => false
  }

  ghost predicate TrueError(c: Config, err: Error) {
    err.Error? ==> Defect(c, err.code, err.task)
  }

  /** A failure about to be recorded is true, unless an error is recorded already. */
  ghost predicate TrueSched(c: Config, err: Error, pc: SchedPc) {
    pc.Fail? ==> Defect(c, pc.code, pc.task) || err.Error?
  }

  ghost predicate TrueWorker(c: Config, pc: WorkerPc) {
    pc.WFail? ==> Defect(c, 1, pc.v)
  }

  ghost predicate Truthful(c: Config, st: State) {
    && TrueError(c, st.m.err)
    && (forall s :: 0 <= s < |st.scheds| ==> TrueSched(c, st.m.err, st.scheds[s]))
    && (forall w :: 0 <= w < |st.workers| ==> TrueWorker(c, st.workers[w]))
  }

  ghost predicate TrueNext(c: Config, m: Shared, s: nat, pc: SchedPc) {
    var (m', pc') := SchedNext(c, m, s, pc);
    TrueError(c, m'.err) && TrueSched(c, m'.err, pc') && (m.err.Error? ==> m'.err == m.err)
  }

  // -------------------------------------------------------------------------
  // What a position knows
  // -------------------------------------------------------------------------

  lemma InvAtSched(c: Config, st: State, s: nat)
    requires Inv(c, st) && s < |st.scheds|
    ensures Global(c, st.m) && SchedInv(c, st.m, s, st.scheds[s])
  {
  }

  lemma ProcessedIsTask(c: Config, m: Shared, s: nat, pc: SchedPc)
    requires SchedInv(c, m, s, pc) && (pc.ProcStart? || pc.Proc?)
    ensures pc.p < N(c)
  {
  }

  lemma DecReadIsPending(c: Config, m: Shared, s: nat, t: nat, p: nat, i: nat)
    requires SchedInv(c, m, s, DecRead(t, p, i))
    ensures Pending(c, m, s, t, p, i)
  {
  }

  lemma CheckIsOpen(c: Config, m: Shared, s: nat, pc: SchedPc)
    requires SchedInv(c, m, s, pc) && pc.CheckEmpty? && m.err.NoError?
    ensures AllInited(c, m.h.inited)
  {
  }

  lemma SourceIsPublished(c: Config, m: Shared, s: nat, pc: SchedPc, j: nat)
    requires Global(c, m) && SchedInv(c, m, s, pc) && AllInited(c, m.h.inited)
    requires j < N(c) && j % S(c) == s && c.fanin0[j] == c.tasks[j].initialFanin == 0
    ensures j in m.h.published || m.h.claimed != {}
  {
    InScanUntilInited(c, m, s, pc);
    assert Covered(pc, j);
    if j !in m.h.published {
      assert m.comp.vals[pc.k.t] in m.h.claimed;
    }
  }

  // -------------------------------------------------------------------------
  // Scheduler steps
  // -------------------------------------------------------------------------

  lemma TrueScan(c: Config, m: Shared, s: nat, idx: nat)
    requires Global(c, m) && SchedInv(c, m, s, Scan(idx)) && TrueError(c, m.err)
    ensures TrueNext(c, m, s, Scan(idx))
  {
    NoEdgeDuringScan(c, m, s);
  }

  lemma TrueProcStart(c: Config, m: Shared, s: nat, t: nat, p: nat)
    requires p < N(c) && TrueError(c, m.err)
    ensures TrueNext(c, m, s, ProcStart(t, p))
  {
  }

  lemma TrueProc(c: Config, m: Shared, s: nat, t: nat, p: nat, i: nat)
    requires p < N(c) && TrueError(c, m.err)
    ensures TrueNext(c, m, s, Proc(t, p, i))
  {
    if i < |Deps(c, p)| {
      assert Lists(c, p, Deps(c, p)[i]);
      if Deps(c, p)[i] in Deps(c, p)[..i] {
        assert Repeats(c, p, Deps(c, p)[i]);
      }
    }
  }

  /** A pending edge that finds a zero fan-in is one edge too many. */
  lemma OneTooMany(c: Config, m: Shared, s: nat, t: nat, p: nat, i: nat)
    requires Global(c, m) && Pending(c, m, s, t, p, i) && m.fanin[Deps(c, p)[i]] == 0
    ensures Defect(c, 4, Deps(c, p)[i])
  {
    var d := Deps(c, p)[i];
    PendingIsFresh(c, m, s, t, p, i);
    DecInPreds(c, m, d);
    assert p in Preds(c, d);
    SubsetSize(m.h.dec[d] + {p}, Preds(c, d));
    assert m.fanin[d] + |m.h.dec[d]| == c.fanin0[d];
  }

  lemma TrueDecRead(c: Config, m: Shared, s: nat, t: nat, p: nat, i: nat)
    requires TrueError(c, m.err) && |m.fanin| == N(c) && i < |Deps(c, p)| && Deps(c, p)[i] < N(c)
    requires m.fanin[Deps(c, p)[i]] == 0 ==> Defect(c, 4, Deps(c, p)[i])
    ensures TrueNext(c, m, s, DecRead(t, p, i))
  {
  }

  lemma TrueDecReadAt(c: Config, m: Shared, s: nat, t: nat, p: nat, i: nat)
    requires Global(c, m) && SchedInv(c, m, s, DecRead(t, p, i)) && TrueError(c, m.err)
    ensures TrueNext(c, m, s, DecRead(t, p, i))
  {
    DecReadIsPending(c, m, s, t, p, i);
    if m.fanin[Deps(c, p)[i]] == 0 {
      OneTooMany(c, m, s, t, p, i);
    }
    TrueDecRead(c, m, s, t, p, i);
  }

  lemma TrueUnready(c: Config, m: Shared, s: nat, idx: nat)
    requires TrueError(c, m.err) && |c.fanin0| == |m.fanin| == N(c)
    requires forall j :: 0 <= j < N(c) ==> m.fanin[j] <= c.fanin0[j]
    ensures TrueNext(c, m, s, Unready(idx))
  {
  }

  lemma TrueCheck(c: Config, m: Shared, s: nat)
    requires TrueError(c, m.err)
    requires m.err.NoError? && N(c) > 0 && m.ready.tail == 0 ==> Defect(c, 6, 0)
    ensures TrueNext(c, m, s, CheckEmpty)
  {
  }

  lemma TrueRest(c: Config, m: Shared, s: nat, pc: SchedPc)
    requires !pc.Scan? && !pc.CheckEmpty? && !pc.ProcStart? && !pc.Proc? && !pc.DecRead? && !pc.Unready?
    requires TrueError(c, m.err) && TrueSched(c, m.err, pc)
    ensures TrueNext(c, m, s, pc)
  {
  }

  lemma FaninBelow(c: Config, m: Shared)
    requires Global(c, m)
    ensures forall j :: 0 <= j < N(c) ==> m.fanin[j] <= c.fanin0[j]
  {
    forall j | 0 <= j < N(c) ensures m.fanin[j] <= c.fanin0[j] {
      assert m.fanin[j] + |m.h.dec[j]| == c.fanin0[j];
    }
  }

  lemma TrueSchedStep(c: Config, m: Shared, s: nat, pc: SchedPc)
    requires Global(c, m) && SchedInv(c, m, s, pc) && TrueError(c, m.err) && TrueSched(c, m.err, pc)
    requires pc.CheckEmpty? && m.err.NoError? && N(c) > 0 && m.ready.tail == 0 ==> Defect(c, 6, 0)
    ensures TrueNext(c, m, s, pc)
  {
    if pc.Scan? {
      TrueScan(c, m, s, pc.idx);
    } else if pc.CheckEmpty? {
      TrueCheck(c, m, s);
    } else if pc.ProcStart? {
      ProcessedIsTask(c, m, s, pc);
      TrueProcStart(c, m, s, pc.t, pc.p);
    } else if pc.Proc? {
      ProcessedIsTask(c, m, s, pc);
      TrueProc(c, m, s, pc.t, pc.p, pc.i);
    } else if pc.DecRead? {
      TrueDecReadAt(c, m, s, pc.t, pc.p, pc.i);
    } else if pc.Unready? {
      FaninBelow(c, m);
      TrueUnready(c, m, s, pc.idx);
    } else {
      TrueRest(c, m, s, pc);
    }
  }

  /** When the barrier has opened and nothing is published, there is no source. */
  lemma NothingToPublish(c: Config, st: State)
    requires Inv(c, st) && AllInited(c, st.m.h.inited) && N(c) > 0 && st.m.ready.tail == 0
    ensures Defect(c, 6, 0)
  {
    assert st.m.h.published == {};
    forall j: nat ensures !Source(c, j) {
      if Source(c, j) {
        var s := j % S(c);
        InvAtSched(c, st, s);
        SourceIsPublished(c, st.m, s, st.scheds[s], j);
        assert false;
      }
    }
  }

  lemma TrueCheckAt(c: Config, st: State, s: nat)
    requires Inv(c, st) && s < |st.scheds|
    requires st.scheds[s].CheckEmpty? && st.m.err.NoError? && N(c) > 0 && st.m.ready.tail == 0
    ensures Defect(c, 6, 0)
  {
    InvAtSched(c, st, s);
    CheckIsOpen(c, st.m, s, st.scheds[s]);
    NothingToPublish(c, st);
  }

  // -------------------------------------------------------------------------
  // Runs
  // -------------------------------------------------------------------------

  lemma TrueSchedTurn(c: Config, st: State, s: nat)
    requires Inv(c, st) && Truthful(c, st) && s < |st.scheds|
    ensures TrueNext(c, st.m, s, st.scheds[s])
  {
    if st.scheds[s].CheckEmpty? && st.m.err.NoError? && N(c) > 0 && st.m.ready.tail == 0 {
      TrueCheckAt(c, st, s);
    }
    InvAtSched(c, st, s);
    TrueSchedStep(c, st.m, s, st.scheds[s]);
  }

  lemma TrueWorkerStep(c: Config, m: Shared, w: nat, pc: WorkerPc)
    requires TrueError(c, m.err) && TrueWorker(c, pc) && (pc.WDispatch? ==> pc.v < N(c))
    ensures var (m', pc') := WorkerNext(c, m, w, pc);
      TrueError(c, m'.err) && TrueWorker(c, pc') && (m.err.Error? ==> m'.err == m.err)
  {
  }

  lemma TruthfulStep(c: Config, st: State, a: Actor)
    requires Inv(c, st) && Truthful(c, st)
    ensures Truthful(c, Step(c, st, a))
  {
    match a {
      case Sched(s) =>
        if s < |st.scheds| {
          TrueSchedTurn(c, st, s);
        }
      case Worker(w) =>
        if w < |st.workers| {
          assert WorkerInv(c, st.m, w, st.workers[w]);
          TrueWorkerStep(c, st.m, w, st.workers[w]);
        }
    }
  }

  lemma {:induction false} TruthfulRun(c: Config, schedule: seq<Actor>)
    requires Launchable(c)
    ensures Truthful(c, Run(c, Init(c), schedule))
    decreases |schedule|
  {
    if schedule != [] {
      var before := schedule[..|schedule| - 1];
      TruthfulRun(c, before);
      RunOk(c, before);
      TruthfulStep(c, Run(c, Init(c), before), schedule[|schedule| - 1]);
    }
  }

  /** Every recorded error is true of the task table. */
  lemma ErrorIsTrue(c: Config, schedule: seq<Actor>)
    requires Launchable(c)
    ensures TrueError(c, Run(c, Init(c), schedule).m.err)
  {
    TruthfulRun(c, schedule);
  }

  lemma LegalEdge(c: Config, p: nat, d: nat)
    requires LegalEdges(c) && p < N(c)
    ensures Lists(c, p, d) ==> d < N(c) && d != p
    ensures !Repeats(c, p, d)
  {
  }

  lemma NoEdgeDefect(c: Config, code: nat, task: nat)
    requires LegalEdges(c) && code in {2, 3, 8, 9}
    ensures !Defect(c, code, task)
  {
    forall p: nat | p < N(c)
      ensures (Lists(c, p, task) ==> task < N(c) && task != p) && !Repeats(c, p, task)
    {
      LegalEdge(c, p, task);
    }
  }

  lemma FirstIsSource(c: Config, order: seq<nat>)
    requires WellFormed(c, order) && N(c) > 0
    ensures Preds(c, order[0]) == {} && c.fanin0[order[0]] == 0
  {
    if p :| p in Preds(c, order[0]) {
      var a := PredecessorIsEarlier(c, order, 0, p);
    }
  }

  lemma NoCountDefect(c: Config, code: nat, task: nat)
    requires ExactFanin(c) && AllRegistered(c) && code in {1, 4, 5}
    ensures !Defect(c, code, task)
  {
  }

  lemma SourceExists(c: Config, order: seq<nat>)
    requires WellFormed(c, order) && N(c) > 0
    ensures Source(c, order[0])
  {
    FirstIsSource(c, order);
  }

  lemma HasSource(c: Config, j: nat, task: nat)
    requires Source(c, j) || N(c) == 0
    ensures !Defect(c, 6, task)
  {
  }

  /** A well-formed table has none of the defects, so a run on it can record no code but 7. */
  lemma NoDefect(c: Config, order: seq<nat>, code: nat, task: nat)
    requires WellFormed(c, order) && code != 7
    ensures !Defect(c, code, task)
  {
    if code in {2, 3, 8, 9} {
      NoEdgeDefect(c, code, task);
    } else if code in {1, 4, 5} {
      NoCountDefect(c, code, task);
    } else if code == 6 {
      if N(c) > 0 {
        SourceExists(c, order);
        HasSource(c, order[0], task);
      }
    }
  }
}
