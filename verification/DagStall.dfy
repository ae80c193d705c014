/**
 With one scheduler block a reported stall is final: if a run records code 7 for
 a task, then no run of the same task table, with any numbers of blocks and any
 interleaving, ever publishes that task or completes all tasks.  The tasks that
 the first run has processed are a set that no run can leave.  Conversely, on a
 table without other defects a fair run reports a stall exactly when some task is
 outside such a set.
 */
module DagStall {
  import opened DagModel
  import opened DagInvariant
  import opened DagSteps
  import opened DagTheorems
  import opened DagAlarms
  import opened DagEvents
  import opened DagDiagnosis
  import opened DagLiveness
  import opened DagFairRuns
  import opened Arithmetic

  /** No task outside `closed` can be made ready by the edges from inside. */
  ghost predicate Saturated(c: Config, closed: set<nat>) {
    |c.fanin0| == N(c) && forall k: nat :: k < N(c) && k !in closed ==> |Preds(c, k) * closed| < c.fanin0[k]
  }

  /** Task `j` is outside some set that no run can leave. */
  ghost predicate Unreachable(c: Config, j: nat) {
    j < N(c) && exists closed: set<nat> :: Saturated(c, closed) && j !in closed
  }

  /** The unreachable task with the smallest id. */
  ghost predicate FirstUnreachable(c: Config, j: nat) {
    Unreachable(c, j) && forall i: nat :: i < j ==> !Unreachable(c, i)
  }

  // -------------------------------------------------------------------------
  // What one scheduler has processed when it reports a stall
  // -------------------------------------------------------------------------

  /** Every edge from a processed task has been counted down. */
  lemma InnerEdgesCounted(c: Config, m: Shared, k: nat)
    requires Global(c, m) && m.err.NoError? && k < N(c)
    ensures |Preds(c, k) * m.h.done| + m.fanin[k] <= c.fanin0[k]
  {
    forall p | p in Preds(c, k) * m.h.done ensures p in m.h.dec[k] {
      EdgesOfDone(c, m, p, k);
    }
    SubsetSize(Preds(c, k) * m.h.done, m.h.dec[k]);
    assert m.fanin[k] + |m.h.dec[k]| == c.fanin0[k];
  }

  lemma ExhaustedIsSaturated(c: Config, m: Shared, pc: SchedPc)
    requires Global(c, m) && SchedInv(c, m, 0, pc) && S(c) == 1 && m.err.NoError?
    requires 0 in m.h.inited && !pc.PushTicket? && Exhausted(c, m)
    ensures Saturated(c, m.h.done)
  {
    ExhaustedIsDone(c, m);
    forall k: nat | k < N(c) && k !in m.h.done ensures |Preds(c, k) * m.h.done| < c.fanin0[k] {
      if m.fanin[k] == 0 {
        ZeroIsPublished(c, m, pc, k);
      }
      InnerEdgesCounted(c, m, k);
    }
  }

  /** A published task has a zero fan-in. */
  lemma PublishedIsZero(c: Config, m: Shared, j: nat)
    requires Global(c, m) && j in m.h.published
    ensures j < N(c) && m.fanin[j] == 0
  {
  }

  lemma UnreadyIsUnreachable(c: Config, m: Shared, pc: SchedPc)
    requires Global(c, m) && SchedInv(c, m, 0, pc) && Lone(c, m, pc) && S(c) == 1 && m.err.NoError?
    requires pc.Unready? && pc.idx < N(c) && m.fanin[pc.idx] != 0
    ensures Unreachable(c, pc.idx)
  {
    UnreadyMeans(c, m, pc);
    ExhaustedIsSaturated(c, m, pc);
    if pc.idx in m.h.done {
      PublishedIsZero(c, m, pc.idx);
    }
  }

  lemma SkippedIsPublished(c: Config, m: Shared, pc: SchedPc, i: nat)
    requires Global(c, m) && SchedInv(c, m, 0, pc) && Lone(c, m, pc) && S(c) == 1 && m.err.NoError?
    requires pc.Unready? && i < pc.idx && i < N(c)
    ensures i in m.h.published
  {
    UnreadyMeans(c, m, pc);
    assert m.fanin[i] == 0;
    ZeroIsPublished(c, m, pc, i);
  }

  // -------------------------------------------------------------------------
  // The recorded stall
  // -------------------------------------------------------------------------

  /** A recorded stall, or one about to be recorded first, names the first unreachable task. */
  ghost predicate TrueStall(c: Config, m: Shared, pc: SchedPc) {
    && (m.err.Error? && m.err.code == 7 ==> FirstUnreachable(c, m.err.task))
    && (pc.Fail? && pc.code == 7 ==> FirstUnreachable(c, pc.task) || m.err.Error?)
  }

  /** Where a stall code comes from. */
  lemma StallComesFrom(c: Config, m: Shared, pc: SchedPc)
    requires |m.fanin| == N(c)
    ensures var (m', pc') := SchedNext(c, m, 0, pc);
      && (m'.err == m.err || (m.err.NoError? && pc.Fail? && m'.err == Error(pc.code, pc.task)))
      && (pc'.Fail? && pc'.code == 7 ==>
            m'.err == m.err && pc.Unready? && pc.idx < N(c) && m.fanin[pc.idx] != 0 && pc'.task == pc.idx)
  {
  }

  lemma StallReported(c: Config, m: Shared, pc: SchedPc)
    requires |m.fanin| == N(c) && TrueStall(c, m, pc)
    requires pc.Unready? && m.err.NoError? && pc.idx < N(c) && m.fanin[pc.idx] != 0 ==> FirstUnreachable(c, pc.idx)
    ensures TrueStall(c, SchedNext(c, m, 0, pc).0, SchedNext(c, m, 0, pc).1)
  {
    StallComesFrom(c, m, pc);
  }

  /** A published task is reachable. */
  lemma PublishedIsReachable(c: Config, schedule: seq<Actor>, i: nat)
    requires Launchable(c) && i in Run(c, Init(c), schedule).m.h.published
    ensures !Unreachable(c, i)
  {
    if Unreachable(c, i) {
      UnreachableStays(c, schedule, i);
    }
  }

  lemma ReportsFirst(c: Config, before: seq<Actor>)
    requires Launchable(c) && S(c) == 1
    requires var st := Run(c, Init(c), before);
      |st.scheds| == 1 && st.scheds[0].Unready? && st.m.err.NoError? && |st.m.fanin| == N(c) &&
      st.scheds[0].idx < N(c) && st.m.fanin[st.scheds[0].idx] != 0
    ensures FirstUnreachable(c, Run(c, Init(c), before).scheds[0].idx)
  {
    var st := Run(c, Init(c), before);
    RunOk(c, before);
    LoneRunOk(c, before);
    InvAtSched(c, st, 0);
    UnreadyIsUnreachable(c, st.m, st.scheds[0]);
    forall i: nat | i < st.scheds[0].idx ensures !Unreachable(c, i) {
      SkippedIsPublished(c, st.m, st.scheds[0], i);
      PublishedIsReachable(c, before, i);
    }
  }

  lemma TrueStallWorker(c: Config, m: Shared, w: nat, wpc: WorkerPc, pc: SchedPc)
    requires TrueStall(c, m, pc)
    ensures TrueStall(c, WorkerNext(c, m, w, wpc).0, pc)
  {
  }

  lemma {:induction false} TrueStallRun(c: Config, schedule: seq<Actor>)
    requires Launchable(c) && S(c) == 1
    ensures var st := Run(c, Init(c), schedule); |st.scheds| == 1 && TrueStall(c, st.m, st.scheds[0])
    decreases |schedule|
  {
    if schedule != [] {
      var before := schedule[..|schedule| - 1];
      TrueStallRun(c, before);
      TrueStallStep(c, before, schedule[|schedule| - 1]);
    }
  }

  lemma TrueStallStep(c: Config, before: seq<Actor>, a: Actor)
    requires Launchable(c) && S(c) == 1
    requires var st := Run(c, Init(c), before); |st.scheds| == 1 && TrueStall(c, st.m, st.scheds[0])
    ensures var st := Step(c, Run(c, Init(c), before), a); |st.scheds| == 1 && TrueStall(c, st.m, st.scheds[0])
  {
    var st := Run(c, Init(c), before);
    match a {
      case Sched(s) =>
        if s == 0 {
          RunOk(c, before);
          InvAtSched(c, st, 0);
          var pc := st.scheds[0];
          if pc.Unready? && st.m.err.NoError? && pc.idx < N(c) && st.m.fanin[pc.idx] != 0 {
            ReportsFirst(c, before);
          }
          StallReported(c, st.m, pc);
        }
      case Worker(w) =>
        if w < |st.workers| {
          TrueStallWorker(c, st.m, w, st.workers[w], st.scheds[0]);
        }
    }
  }

  // -------------------------------------------------------------------------
  // No run leaves a saturated set
  // -------------------------------------------------------------------------

  lemma PushIsInside(c: Config, m: Shared, s: nat, pc: SchedPc, closed: set<nat>)
    requires Global(c, m) && SchedInv(c, m, s, pc) && pc.PushTicket? && Saturated(c, closed) && m.h.published <= closed
    ensures pc.j in closed
  {
    assert m.h.owner[pc.j] == s && m.fanin[pc.j] == 0;
    assert m.fanin[pc.j] + |m.h.dec[pc.j]| == c.fanin0[pc.j];
    DecInPreds(c, m, pc.j);
    assert m.h.dec[pc.j] <= m.h.claimed;
    SubsetSize(m.h.dec[pc.j], Preds(c, pc.j) * closed);
  }

  lemma PushStaysInside(c: Config, m: Shared, s: nat, pc: SchedPc, closed: set<nat>)
    requires Global(c, m) && SchedInv(c, m, s, pc) && Saturated(c, closed) && m.h.published <= closed
    ensures SchedNext(c, m, s, pc).0.h.published <= closed
  {
    SchedEffect(c, m, s, pc);
    if pc.PushTicket? {
      PushIsInside(c, m, s, pc, closed);
    }
  }

  lemma StaysInside(c: Config, st: State, a: Actor, closed: set<nat>)
    requires Inv(c, st) && Saturated(c, closed) && st.m.h.published <= closed
    ensures Step(c, st, a).m.h.published <= closed
  {
    match a {
      case Sched(s) =>
        if s < |st.scheds| {
          InvAtSched(c, st, s);
          PushStaysInside(c, st.m, s, st.scheds[s], closed);
        }
      case Worker(w) => if w < |st.workers| { WorkerEffect(c, st.m, w, st.workers[w]); }
    }
  }

  lemma {:induction false} NeverOutside(c: Config, schedule: seq<Actor>, closed: set<nat>)
    requires Launchable(c) && Saturated(c, closed)
    ensures Run(c, Init(c), schedule).m.h.published <= closed
    decreases |schedule|
  {
    if schedule != [] {
      var before := schedule[..|schedule| - 1];
      NeverOutside(c, before, closed);
      RunOk(c, before);
      StaysInside(c, Run(c, Init(c), before), schedule[|schedule| - 1], closed);
    }
  }

  lemma NotPublishedNotFinished(c: Config, m: Shared, j: nat)
    requires Global(c, m) && j < N(c) && j !in m.h.published
    ensures m.completed < N(c)
  {
    SubsetSize(m.h.done, UpTo(N(c)) - {j});
  }

  /** An unreachable task is never published, and the run never completes. */
  lemma UnreachableStays(c: Config, schedule: seq<Actor>, j: nat)
    requires Launchable(c) && Unreachable(c, j)
    ensures var m := Run(c, Init(c), schedule).m; j !in m.h.published && m.completed < N(c)
  {
    var closed: set<nat> :| Saturated(c, closed) && j !in closed;
    NeverOutside(c, schedule, closed);
    RunOk(c, schedule);
    NotPublishedNotFinished(c, Run(c, Init(c), schedule).m, j);
  }

  /** The two launches differ only in blocks, ring size, buffers and task bodies. */
  predicate SameTable(c: Config, c': Config) {
    c'.tasks == c.tasks && c'.dependents == c.dependents && c'.fanin0 == c.fanin0
  }

  lemma SamePreds(c: Config, c': Config, k: nat)
    requires SameTable(c, c')
    ensures Preds(c', k) == Preds(c, k)
  {
    forall p: nat ensures Deps(c', p) == Deps(c, p) {
    }
  }

  lemma SameUnreachable(c: Config, c': Config, j: nat)
    requires SameTable(c, c') && Unreachable(c, j)
    ensures Unreachable(c', j)
  {
    var closed: set<nat> :| Saturated(c, closed) && j !in closed;
    forall k: nat | k < N(c') && k !in closed ensures |Preds(c', k) * closed| < c'.fanin0[k] {
      SamePreds(c, c', k);
    }
    assert Saturated(c', closed);
  }

  /**
   If a run with one scheduler block records a stall for task `j`, then no run of
   the same table on any number of blocks ever publishes `j` or completes.
   */
  lemma StallIsFinal(c: Config, schedule: seq<Actor>, c': Config, schedule': seq<Actor>, j: nat)
    requires Launchable(c) && S(c) == 1 && Run(c, Init(c), schedule).m.err == Error(7, j)
    requires Launchable(c') && SameTable(c, c')
    ensures var m := Run(c', Init(c'), schedule').m; j !in m.h.published && m.completed < N(c')
  {
    TrueStallRun(c, schedule);
    SameUnreachable(c, c', j);
    UnreachableStays(c', schedule', j);
  }

  // -------------------------------------------------------------------------
  // The stall code is exact
  // -------------------------------------------------------------------------

  /** The table has no defect of another kind: only edges that are missing can keep a task from running. */
  ghost predicate Consistent(c: Config) {
    && LegalEdges(c) && AllRegistered(c) && |c.fanin0| == N(c)
    && (forall j :: 0 <= j < N(c) ==> c.fanin0[j] == c.tasks[j].initialFanin >= |Preds(c, j)|)
    && (N(c) > 0 ==> exists j: nat :: Source(c, j))
  }

  lemma OnlyStallLeft(c: Config, code: nat, task: nat)
    requires Consistent(c) && Defect(c, code, task)
    ensures code == 7
  {
    if code in {2, 3, 8, 9} {
      NoEdgeDefect(c, code, task);
    }
  }

  ghost predicate SomeUnreachable(c: Config) {
    exists j: nat :: Unreachable(c, j)
  }

  lemma StallVerdict(c: Config, schedule: seq<Actor>)
    requires Launchable(c) && S(c) == 1 && Consistent(c) && Over(c, Run(c, Init(c), schedule).m)
    ensures var m := Run(c, Init(c), schedule).m;
      if SomeUnreachable(c) then m.err.Error? && m.err.code == 7 && FirstUnreachable(c, m.err.task) else CleanFinish(c, m)
  {
    var m := Run(c, Init(c), schedule).m;
    ErrorIsTrue(c, schedule);
    TrueStallRun(c, schedule);
    CounterChain(c, schedule);
    if m.err.Error? {
      OnlyStallLeft(c, m.err.code, m.err.task);
    }
    if j: nat :| Unreachable(c, j) {
      UnreachableStays(c, schedule, j);
    }
  }

  /**
   With one scheduler block, on a table without other defects, every fair run ends
   with the stall code for the first unreachable task if there is one, and with a
   clean finish if there is none.
   */
  lemma FairRunStallsIff(c: Config, turn: nat -> Actor, run: nat -> State) returns (end: nat)
    requires Manned(c) && S(c) == 1 && Consistent(c) && IsRun(c, turn, run) && Fair(c, turn)
    ensures forall n :: end <= n ==> (run(n).m.err.Error? && run(n).m.err.code == 7 <==> SomeUnreachable(c))
    ensures forall n :: end <= n && SomeUnreachable(c) ==> run(n).m.err.Error? && FirstUnreachable(c, run(n).m.err.task)
    ensures forall n :: end <= n ==> (CleanFinish(c, run(n).m) <==> !SomeUnreachable(c))
  {
    end := EventuallyOver(c, turn, run, 0);
    forall n | end <= n
      ensures run(n).m.err.Error? && run(n).m.err.code == 7 <==> SomeUnreachable(c)
      ensures SomeUnreachable(c) ==> run(n).m.err.Error? && FirstUnreachable(c, run(n).m.err.task)
      ensures CleanFinish(c, run(n).m) <==> !SomeUnreachable(c)
    {
      OverStays(c, turn, run, end, n);
      RunOfPrefix(c, turn, run, n);
      StallVerdict(c, Prefix(turn, n));
    }
  }
}
