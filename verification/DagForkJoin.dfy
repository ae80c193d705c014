/**
 Fork-join graphs: one task that waits for all the others, which wait for
 nobody.  On such a graph the stall detector raises no false alarm with any
 number of scheduler blocks, although its four counter reads are not atomic:
 when they agree twice, all tasks but the join have been processed, and then
 the fan-in of the join is zero.
 */
module DagForkJoin {
  import opened TicketRing
  import opened DagModel
  import opened DagInvariant
  import opened DagSteps
  import opened DagTheorems
  import opened DagDiagnosis
  import opened DagAlarms
  import opened Arithmetic

  /** Task `join` depends on every other task, and no other task depends on anything. */
  ghost predicate ForkJoin(c: Config, join: nat) {
    && join < N(c) && Preds(c, join) == UpTo(N(c)) - {join}
    && forall p: nat :: p < N(c) && p != join ==> Preds(c, p) == {}
  }

  /** A scheduler pushes a task while it processes a completion only after counting down an edge. */
  predicate PushedByEdge(c: Config, pc: SchedPc) {
    pc.PushTicket? && pc.k.ToProc? ==> pc.j < |c.fanin0| && c.fanin0[pc.j] > 0
  }

  /** The number of tasks other than the join. */
  function Forks(c: Config): nat { if N(c) == 0 then 0 else N(c) - 1 }

  /** What the detector has seen at each of its positions, where `k` is the number of forks. */
  ghost predicate Seen(m: Shared, k: nat, pc: SchedPc) {
    match pc
    case PopHead(late) => late ==> m.comp.tail >= k
    case PopTail(late, _) => late ==> m.comp.tail >= k
    case PopCas(late, _) => late ==> m.comp.tail >= k
    case PopSpin(late, _) => late ==> m.comp.tail >= k
    case PopSpinErr(late, _) => late ==> m.comp.tail >= k
    case StallTail(again) => again ==> m.comp.head >= k
    case StallFinished(again, pub) => pub >= k && (again ==> m.comp.head >= k)
    case StallClaimed(again, pub, fin) => pub >= k && fin <= m.comp.tail && (again ==> m.comp.head >= k)
    case StallCompleted(again, pub, fin, cla) => pub >= k && fin <= m.comp.tail && (again ==> cla >= k)
    case Unready(_) => m.completed >= k
    case _ => true
  }

  ghost predicate Watched(c: Config, m: Shared, pc: SchedPc) {
    PushedByEdge(c, pc) && (m.err.NoError? ==> Seen(m, Forks(c), pc))
  }

  // -------------------------------------------------------------------------
  // What the detector has seen stays true
  // -------------------------------------------------------------------------

  /** The counters only grow. */
  ghost predicate CountsUp(m: Shared, m': Shared) {
    && m.comp.tail <= m'.comp.tail && m.comp.head <= m'.comp.head && m.completed <= m'.completed
    && (m'.err.NoError? ==> m.err.NoError?)
  }

  lemma SchedCountsUp(c: Config, m: Shared, s: nat, pc: SchedPc)
    ensures CountsUp(m, SchedNext(c, m, s, pc).0)
  {
  }

  lemma WorkerCountsUp(c: Config, m: Shared, w: nat, pc: WorkerPc)
    ensures CountsUp(m, WorkerNext(c, m, w, pc).0)
  {
  }

  lemma WatchedStable(c: Config, m: Shared, m': Shared, pc: SchedPc)
    requires Watched(c, m, pc) && CountsUp(m, m')
    ensures Watched(c, m', pc)
  {
  }

  // -------------------------------------------------------------------------
  // One step of a scheduler
  // -------------------------------------------------------------------------

  lemma EdgeStep(c: Config, m: Shared, s: nat, pc: SchedPc)
    requires PushedByEdge(c, pc) && |c.fanin0| == |m.fanin|
    requires forall j :: 0 <= j < |m.fanin| ==> m.fanin[j] <= c.fanin0[j]
    ensures PushedByEdge(c, SchedNext(c, m, s, pc).1)
  {
  }

  lemma PopSeen(c: Config, m: Shared, s: nat, pc: SchedPc)
    requires Seen(m, Forks(c), pc) && m.err.NoError?
    requires pc.PopHead? || pc.PopTail? || pc.PopCas? || pc.PopSpin? || pc.PopSpinErr?
    requires pc.PopTail? ==> pc.head <= m.comp.head
    ensures Seen(SchedNext(c, m, s, pc).0, Forks(c), SchedNext(c, m, s, pc).1)
  {
  }

  lemma StallSeen(c: Config, m: Shared, s: nat, pc: SchedPc)
    requires Seen(m, Forks(c), pc) && m.err.NoError?
    requires pc.StallTail? || pc.StallFinished? || pc.StallClaimed? || pc.StallCompleted? || pc.Unready?
    requires pc.StallTail? ==> m.ready.tail >= Forks(c)
    ensures Seen(SchedNext(c, m, s, pc).0, Forks(c), SchedNext(c, m, s, pc).1)
  {
  }

  lemma OtherSeen(c: Config, m: Shared, s: nat, pc: SchedPc)
    requires !(pc.PopHead? || pc.PopTail? || pc.PopCas? || pc.PopSpin? || pc.PopSpinErr?)
    requires !(pc.StallTail? || pc.StallFinished? || pc.StallClaimed? || pc.StallCompleted? || pc.Unready?)
    ensures Seen(SchedNext(c, m, s, pc).0, Forks(c), SchedNext(c, m, s, pc).1)
  {
  }

  lemma HeadIsBehind(c: Config, m: Shared, s: nat, pc: SchedPc)
    requires SchedInv(c, m, s, pc)
    ensures pc.PopTail? ==> pc.head <= m.comp.head
    ensures pc.StallTail? ==> AllInited(c, m.h.inited)
  {
  }

  lemma WatchedStep(c: Config, m: Shared, s: nat, pc: SchedPc)
    requires Global(c, m) && SchedInv(c, m, s, pc) && Watched(c, m, pc) && m.err.NoError?
    requires pc.StallTail? ==> m.ready.tail >= Forks(c)
    ensures Watched(c, SchedNext(c, m, s, pc).0, SchedNext(c, m, s, pc).1)
  {
    HeadIsBehind(c, m, s, pc);
    FaninBelow(c, m);
    EdgeStep(c, m, s, pc);
    if pc.PopHead? || pc.PopTail? || pc.PopCas? || pc.PopSpin? || pc.PopSpinErr? {
      PopSeen(c, m, s, pc);
    } else if pc.StallTail? || pc.StallFinished? || pc.StallClaimed? || pc.StallCompleted? || pc.Unready? {
      StallSeen(c, m, s, pc);
    } else {
      OtherSeen(c, m, s, pc);
    }
  }

  // -------------------------------------------------------------------------
  // After the barrier all tasks but the join are published
  // -------------------------------------------------------------------------

  lemma ForkIsPublished(c: Config, m: Shared, s: nat, pc: SchedPc, j: nat)
    requires SchedInv(c, m, s, pc) && PushedByEdge(c, pc) && s in m.h.inited
    requires j < N(c) && j % S(c) == s && c.fanin0[j] == c.tasks[j].initialFanin == 0
    ensures j in m.h.published
  {
    InScanUntilInited(c, m, s, pc);
    assert Covered(pc, j);
  }

  ghost predicate AllWatched(c: Config, st: State) {
    forall s :: 0 <= s < |st.scheds| ==> Watched(c, st.m, st.scheds[s])
  }

  lemma ForksArePublished(c: Config, st: State, join: nat)
    requires Inv(c, st) && AllWatched(c, st) && ExactFanin(c) && ForkJoin(c, join) && AllInited(c, st.m.h.inited)
    ensures st.m.ready.tail >= Forks(c)
  {
    var forks := UpTo(N(c)) - {join};
    forall j | j in forks ensures j in st.m.h.published {
      var s := j % S(c);
      assert Preds(c, j) == {};
      assert SchedInv(c, st.m, s, st.scheds[s]) && Watched(c, st.m, st.scheds[s]);
      ForkIsPublished(c, st.m, s, st.scheds[s], j);
    }
    SubsetSize(forks, st.m.h.published);
  }

  // -------------------------------------------------------------------------
  // The detector finds no unready task
  // -------------------------------------------------------------------------

  lemma ForksAreDone(c: Config, m: Shared, join: nat)
    requires LifeCycle(c, m) && join < N(c) && join !in m.h.published && m.completed >= Forks(c)
    ensures m.h.done == UpTo(N(c)) - {join}
  {
    SubsetSize(m.h.done, UpTo(N(c)) - {join});
  }

  lemma JoinIsReady(c: Config, m: Shared, join: nat)
    requires Global(c, m) && m.err.NoError? && ExactFanin(c) && ForkJoin(c, join) && m.completed >= Forks(c)
    ensures m.fanin[join] == 0
  {
    if join !in m.h.published {
      ForksAreDone(c, m, join);
      PredsCounted(c, m, join);
    }
  }

  lemma AllAreReady(c: Config, m: Shared, join: nat, j: nat)
    requires Global(c, m) && m.err.NoError? && ExactFanin(c) && ForkJoin(c, join) && m.completed >= Forks(c)
    requires j < N(c)
    ensures m.fanin[j] == 0
  {
    if j == join {
      JoinIsReady(c, m, join);
    } else {
      assert Preds(c, j) == {};
      FaninBelow(c, m);
    }
  }

  /** The next step of a scheduler does not report a stall. */
  predicate Calm(c: Config, m: Shared, s: nat, pc: SchedPc) {
    var pc' := SchedNext(c, m, s, pc).1;
    pc'.Fail? ==> pc'.code != 7
  }

  lemma CalmUnready(c: Config, m: Shared, s: nat, idx: nat)
    requires idx >= N(c) || Load(m.fanin, idx) == 0
    ensures Calm(c, m, s, Unready(idx))
  {
  }

  lemma CalmElsewhere(c: Config, m: Shared, s: nat, pc: SchedPc)
    requires !pc.Unready?
    ensures Calm(c, m, s, pc)
  {
    OnlyUnreadyStalls(c, m, s, pc);
  }

  lemma UnreadyFindsNone(c: Config, m: Shared, s: nat, idx: nat, join: nat)
    requires Global(c, m) && m.err.NoError? && ExactFanin(c) && ForkJoin(c, join) && m.completed >= Forks(c)
    ensures Calm(c, m, s, Unready(idx))
  {
    if idx < N(c) {
      AllAreReady(c, m, join, idx);
    }
    CalmUnready(c, m, s, idx);
  }

  lemma CountedBeforeSearch(c: Config, m: Shared, pc: SchedPc)
    requires Watched(c, m, pc) && m.err.NoError? && pc.Unready?
    ensures m.completed >= Forks(c) && pc == Unready(pc.idx)
  {
  }

  lemma NeverStalls(c: Config, st: State, s: nat, join: nat)
    requires Inv(c, st) && AllWatched(c, st) && st.m.err.NoError? && s < |st.scheds|
    requires ExactFanin(c) && ForkJoin(c, join)
    ensures Calm(c, st.m, s, st.scheds[s])
  {
    if st.scheds[s].Unready? {
      CountedBeforeSearch(c, st.m, st.scheds[s]);
      UnreadyFindsNone(c, st.m, s, st.scheds[s].idx, join);
    } else {
      CalmElsewhere(c, st.m, s, st.scheds[s]);
    }
  }

  // -------------------------------------------------------------------------
  // Runs
  // -------------------------------------------------------------------------

  lemma WatchedOthers(c: Config, st: State, m': Shared)
    requires AllWatched(c, st) && CountsUp(st.m, m')
    ensures forall u :: 0 <= u < |st.scheds| ==> Watched(c, m', st.scheds[u])
  {
    forall u | 0 <= u < |st.scheds| ensures Watched(c, m', st.scheds[u]) {
      WatchedStable(c, st.m, m', st.scheds[u]);
    }
  }

  lemma WatchedOwn(c: Config, st: State, s: nat, join: nat)
    requires Inv(c, st) && AllWatched(c, st) && st.m.err.NoError? && s < |st.scheds|
    requires ExactFanin(c) && ForkJoin(c, join)
    ensures Watched(c, SchedNext(c, st.m, s, st.scheds[s]).0, SchedNext(c, st.m, s, st.scheds[s]).1)
  {
    InvAtSched(c, st, s);
    if st.scheds[s].StallTail? {
      HeadIsBehind(c, st.m, s, st.scheds[s]);
      ForksArePublished(c, st, join);
    }
    WatchedStep(c, st.m, s, st.scheds[s]);
  }

  lemma WatchedSchedTurn(c: Config, st: State, s: nat, join: nat)
    requires Inv(c, st) && AllWatched(c, st) && st.m.err.NoError? && s < |st.scheds|
    requires ExactFanin(c) && ForkJoin(c, join)
    ensures AllWatched(c, Step(c, st, Sched(s)))
  {
    WatchedOwn(c, st, s, join);
    SchedCountsUp(c, st.m, s, st.scheds[s]);
    WatchedOthers(c, st, SchedNext(c, st.m, s, st.scheds[s]).0);
  }

  lemma WatchedWorkerTurn(c: Config, st: State, w: nat)
    requires AllWatched(c, st) && w < |st.workers|
    ensures AllWatched(c, Step(c, st, Worker(w)))
  {
    WorkerCountsUp(c, st.m, w, st.workers[w]);
    WatchedOthers(c, st, WorkerNext(c, st.m, w, st.workers[w]).0);
  }

  lemma ForkJoinStep(c: Config, before: seq<Actor>, a: Actor, order: seq<nat>, join: nat)
    requires Launchable(c) && WellFormed(c, order) && ForkJoin(c, join)
    requires Silent(Run(c, Init(c), before)) && AllWatched(c, Run(c, Init(c), before))
    ensures Silent(Step(c, Run(c, Init(c), before), a)) && AllWatched(c, Step(c, Run(c, Init(c), before), a))
  {
    RunOk(c, before);
    TruthfulRun(c, before);
    var st := Run(c, Init(c), before);
    match a {
      case Sched(s) =>
        if s < |st.scheds| {
          TrueSchedTurn(c, st, s);
          NeverStalls(c, st, s, join);
          SilentSchedStep(c, st, order, s);
          WatchedSchedTurn(c, st, s, join);
        }
      case Worker(w) =>
        if w < |st.workers| {
          SilentWorkerStep(c, st, order, w);
          WatchedWorkerTurn(c, st, w);
        }
    }
  }

  lemma InitQuiet(c: Config)
    ensures Silent(Init(c)) && AllWatched(c, Init(c))
  {
  }

  /** On a fork-join graph no run ever records an error, for any number of scheduler blocks. */
  lemma {:induction false} ForkJoinNeverAlarms(c: Config, schedule: seq<Actor>, order: seq<nat>, join: nat)
    requires Launchable(c) && WellFormed(c, order) && ForkJoin(c, join)
    ensures Silent(Run(c, Init(c), schedule)) && AllWatched(c, Run(c, Init(c), schedule))
    decreases |schedule|
  {
    if schedule == [] {
      InitQuiet(c);
    } else {
      var before := schedule[..|schedule| - 1];
      ForkJoinNeverAlarms(c, before, order, join);
      ForkJoinStep(c, before, schedule[|schedule| - 1], order, join);
    }
  }
}
