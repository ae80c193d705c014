/**
 The verdict of the start-up phase, with any number of blocks.  A table whose two
 fan-in copies differ ends with code 5 (or with code 1 if a function is unknown),
 and the task that is named is the first such task of its stride.  A table without
 sources ends with code 6, and no other table does.  Only block 0 reports codes 6
 and 7.
 */
module DagStartUp {
  import opened DagModel
  import opened DagInvariant
  import opened DagPreserve
  import opened DagSteps
  import opened DagTheorems
  import opened DagDiagnosis
  import opened DagStall
  import opened DagLiveness
  import opened DagFairRuns

  /** The uploaded fan-in of task `j` is not the one in its descriptor. */
  predicate Mismatch(c: Config, j: nat) {
    j < N(c) && |c.fanin0| == N(c) && c.fanin0[j] != c.tasks[j].initialFanin
  }

  ghost predicate SomeMismatch(c: Config) {
    exists j: nat :: Mismatch(c, j)
  }

  /** There are tasks, and every task waits for others. */
  ghost predicate Sourceless(c: Config) {
    N(c) > 0 && |c.fanin0| == N(c) && forall j :: 0 <= j < N(c) ==> c.fanin0[j] > 0
  }

  // -------------------------------------------------------------------------
  // Only block 0 reports
  // -------------------------------------------------------------------------

  predicate Detects(pc: SchedPc) {
    match pc
    case StallTail(_) => true
    case StallFinished(_, _) => true
    case StallClaimed(_, _, _) => true
    case StallCompleted(_, _, _, _) => true
    case Unready(_) => true
    case PopHead(late) => late
    case PopTail(late, _) => late
    case PopCas(late, _) => late
    case PopSpin(late, _) => late
    case PopSpinErr(late, _) => late
    case Fail(code, _, _) => code == 6 || code == 7
    case _ => false
  }

  lemma NeverDetects(c: Config, m: Shared, s: nat, pc: SchedPc)
    requires s != 0 && !Detects(pc)
    ensures !Detects(SchedNext(c, m, s, pc).1)
  {
  }

  ghost predicate OthersNeverDetect(st: State) {
    forall s :: 0 <= s < |st.scheds| && s != 0 ==> !Detects(st.scheds[s])
  }

  lemma OthersStep(c: Config, st: State, a: Actor)
    requires OthersNeverDetect(st)
    ensures OthersNeverDetect(Step(c, st, a))
  {
    if a.Sched? && a.s < |st.scheds| && a.s != 0 {
      NeverDetects(c, st.m, a.s, st.scheds[a.s]);
    }
  }

  /** No block but block 0 runs the stall detector or is about to record code 6 or 7. */
  lemma {:induction false} OnlyBlockZeroReports(c: Config, schedule: seq<Actor>)
    ensures OthersNeverDetect(Run(c, Init(c), schedule))
    decreases |schedule|
  {
    if schedule != [] {
      var before := schedule[..|schedule| - 1];
      OnlyBlockZeroReports(c, before);
      OthersStep(c, Run(c, Init(c), before), schedule[|schedule| - 1]);
    }
  }

  // -------------------------------------------------------------------------
  // A mismatch is found before anything is processed
  // -------------------------------------------------------------------------

  lemma InitedHasCovered(c: Config, m: Shared, s: nat, pc: SchedPc, j: nat)
    requires SchedInv(c, m, s, pc) && s in m.h.inited && m.err.NoError? && j < N(c) && j % S(c) == s
    ensures !Mismatch(c, j)
  {
    InScanUntilInited(c, m, s, pc);
    assert Covered(pc, j);
  }

  /** Until the error is recorded, a mismatch keeps the barrier closed. */
  lemma MismatchHoldsBarrier(c: Config, st: State)
    requires Inv(c, st) && st.m.err.NoError? && SomeMismatch(c)
    ensures !AllInited(c, st.m.h.inited)
  {
    var j: nat :| Mismatch(c, j);
    var s := j % S(c);
    InvAtSched(c, st, s);
    if s in st.m.h.inited {
      InitedHasCovered(c, st.m, s, st.scheds[s], j);
    }
  }

  predicate Checks(pc: SchedPc) {
    pc.CheckEmpty? || pc.ProcStart? || pc.Proc? || pc.DecRead? || pc.Unready?
  }

  lemma WhoFails(c: Config, m: Shared, s: nat, pc: SchedPc)
    requires !pc.Fail? && SchedNext(c, m, s, pc).1.Fail?
    ensures pc.Scan? || Checks(pc)
    ensures pc.Scan? ==> SchedNext(c, m, s, pc).1.code == 5 && SchedNext(c, m, s, pc).1.task == pc.idx
    ensures !pc.Scan? ==> SchedNext(c, m, s, pc).1.code != 5
  {
  }

  lemma ChecksAreOpen(c: Config, m: Shared, s: nat, pc: SchedPc)
    requires SchedInv(c, m, s, pc) && m.err.NoError? && Checks(pc)
    ensures AllInited(c, m.h.inited)
  {
  }

  /** Nothing but a mismatch or an unknown function has been or is about to be recorded. */
  ghost predicate Early(st: State) {
    && (st.m.err.Error? ==> st.m.err.code == 5 || st.m.err.code == 1)
    && (st.m.err.NoError? ==> forall s :: 0 <= s < |st.scheds| && st.scheds[s].Fail? ==> st.scheds[s].code == 5)
  }

  lemma RecordEffect(c: Config, m: Shared, s: nat, pc: SchedPc)
    ensures SchedNext(c, m, s, pc).0.err == if pc.Fail? && m.err.NoError? then Error(pc.code, pc.task) else m.err
    ensures pc.Fail? ==> !SchedNext(c, m, s, pc).1.Fail?
  {
  }

  lemma WorkerRecordEffect(c: Config, m: Shared, w: nat, pc: WorkerPc)
    ensures WorkerNext(c, m, w, pc).0.err == if pc.WFail? && m.err.NoError? then Error(1, pc.v) else m.err
  {
  }

  lemma EarlySchedStep(c: Config, st: State, s: nat)
    requires Inv(c, st) && SomeMismatch(c) && Early(st) && s < |st.scheds|
    ensures Early(Step(c, st, Sched(s)))
  {
    var pc := st.scheds[s];
    RecordEffect(c, st.m, s, pc);
    if st.m.err.NoError? && !pc.Fail? && SchedNext(c, st.m, s, pc).1.Fail? {
      WhoFails(c, st.m, s, pc);
      if Checks(pc) {
        InvAtSched(c, st, s);
        ChecksAreOpen(c, st.m, s, pc);
        MismatchHoldsBarrier(c, st);
      }
    }
  }

  lemma {:induction false} MismatchIsFirst(c: Config, schedule: seq<Actor>)
    requires Launchable(c) && SomeMismatch(c)
    ensures Early(Run(c, Init(c), schedule))
    decreases |schedule|
  {
    if schedule != [] {
      var before := schedule[..|schedule| - 1];
      MismatchIsFirst(c, before);
      RunOk(c, before);
      var st := Run(c, Init(c), before);
      match schedule[|schedule| - 1] {
        case Sched(s) => if s < |st.scheds| { EarlySchedStep(c, st, s); }
        case Worker(w) => if w < |st.workers| { WorkerRecordEffect(c, st.m, w, st.workers[w]); }
      }
    }
  }

  // -------------------------------------------------------------------------
  // Code 5 names the first mismatch of a stride
  // -------------------------------------------------------------------------

  ghost predicate FirstOfStride(c: Config, t: nat) {
    Mismatch(c, t) && forall j: nat :: j < t && j % S(c) == t % S(c) ==> !Mismatch(c, j)
  }

  ghost predicate TrueFive(c: Config, m: Shared, pc: SchedPc) {
    pc.Fail? && pc.code == 5 && m.err.NoError? ==> FirstOfStride(c, pc.task)
  }

  ghost predicate AllTrueFive(c: Config, st: State) {
    && (st.m.err.Error? && st.m.err.code == 5 ==> FirstOfStride(c, st.m.err.task))
    && (forall s :: 0 <= s < |st.scheds| ==> TrueFive(c, st.m, st.scheds[s]))
  }

  lemma ScanFindsFirst(c: Config, m: Shared, s: nat, idx: nat)
    requires Global(c, m) && SchedInv(c, m, s, Scan(idx)) && m.err.NoError? && SchedNext(c, m, s, Scan(idx)).1.Fail?
    ensures FirstOfStride(c, idx)
  {
    NoEdgeDuringScan(c, m, s);
    forall j: nat | j < idx && j % S(c) == idx % S(c) ensures !Mismatch(c, j) {
      assert Covered(Scan(idx), j);
    }
  }

  lemma TrueFiveSchedStep(c: Config, st: State, s: nat)
    requires Inv(c, st) && AllTrueFive(c, st) && s < |st.scheds|
    ensures AllTrueFive(c, Step(c, st, Sched(s)))
  {
    var pc := st.scheds[s];
    RecordEffect(c, st.m, s, pc);
    assert TrueFive(c, st.m, pc);
    if st.m.err.NoError? && !pc.Fail? && SchedNext(c, st.m, s, pc).1.Fail? {
      WhoFails(c, st.m, s, pc);
      if pc.Scan? {
        InvAtSched(c, st, s);
        ScanFindsFirst(c, st.m, s, pc.idx);
      }
    }
  }

  /** A recorded code 5 names a mismatch, and no task of its stride before it has one. */
  lemma {:induction false} FiveIsFirst(c: Config, schedule: seq<Actor>)
    requires Launchable(c)
    ensures AllTrueFive(c, Run(c, Init(c), schedule))
    decreases |schedule|
  {
    if schedule != [] {
      var before := schedule[..|schedule| - 1];
      FiveIsFirst(c, before);
      RunOk(c, before);
      var st := Run(c, Init(c), before);
      match schedule[|schedule| - 1] {
        case Sched(s) => if s < |st.scheds| { TrueFiveSchedStep(c, st, s); }
        case Worker(w) => if w < |st.workers| { WorkerRecordEffect(c, st.m, w, st.workers[w]); }
      }
    }
  }

  // -------------------------------------------------------------------------
  // A table without sources
  // -------------------------------------------------------------------------

  lemma NothingPublished(c: Config, schedule: seq<Actor>)
    requires Launchable(c) && Sourceless(c)
    ensures Run(c, Init(c), schedule).m.h.published == {}
  {
    forall k: nat | k < N(c) ensures |Preds(c, k) * {}| < c.fanin0[k] {
      assert Preds(c, k) * {} == {};
    }
    NeverOutside(c, schedule, {});
  }

  /** Block 0 has not passed its check for an empty start. */
  predicate BeforeCheck(pc: SchedPc) {
    pc.Scan? || pc.InitAdd? || pc.Barrier? || pc.BarrierErr? || pc.CheckEmpty? || (pc.Fail? && pc.code == 6 && pc.task == 0)
  }

  ghost predicate Barren(st: State) {
    && (st.m.err.Error? ==> st.m.err == Error(6, 0))
    && (st.m.err.NoError? ==>
          && (|st.scheds| > 0 ==> BeforeCheck(st.scheds[0]))
          && forall s :: 0 < s < |st.scheds| ==> !st.scheds[s].Fail?)
  }

  lemma NothingToProcess(c: Config, m: Shared, s: nat, pc: SchedPc)
    requires Global(c, m) && SchedInv(c, m, s, pc) && m.h.published == {}
    ensures !pc.ProcStart? && !pc.Proc? && !pc.DecRead?
  {
    assert m.h.claimed == {};
  }

  lemma NothingToRun(c: Config, m: Shared, w: nat, pc: WorkerPc)
    requires Global(c, m) && WorkerInv(c, m, w, pc) && m.h.published == {}
    ensures !pc.WFail?
  {
  }

  lemma ScanPasses(c: Config, m: Shared, s: nat, idx: nat)
    requires Global(c, m) && SchedInv(c, m, s, Scan(idx)) && Sourceless(c) && !SomeMismatch(c)
    ensures var pc' := SchedNext(c, m, s, Scan(idx)).1; pc'.Scan? || pc'.InitAdd?
  {
    NoEdgeDuringScan(c, m, s);
    if idx < N(c) {
      assert !Mismatch(c, idx);
    }
  }

  lemma BlockZeroWaits(c: Config, m: Shared, pc: SchedPc)
    requires BeforeCheck(pc) && !pc.Fail? && !pc.Scan? && m.err.NoError? && N(c) > 0 && m.ready.tail == 0
    ensures BeforeCheck(SchedNext(c, m, 0, pc).1)
  {
  }

  lemma BarrenSchedStep(c: Config, st: State, s: nat)
    requires Inv(c, st) && Sourceless(c) && !SomeMismatch(c) && st.m.h.published == {} && Barren(st)
    requires s < |st.scheds| && (s > 0 ==> !Detects(st.scheds[s]))
    ensures Barren(Step(c, st, Sched(s)))
  {
    var pc := st.scheds[s];
    RecordEffect(c, st.m, s, pc);
    InvAtSched(c, st, s);
    if st.m.err.NoError? && !pc.Fail? {
      if pc.Scan? {
        ScanPasses(c, st.m, s, pc.idx);
      } else if s == 0 {
        BlockZeroWaits(c, st.m, pc);
      } else if SchedNext(c, st.m, s, pc).1.Fail? {
        WhoFails(c, st.m, s, pc);
        NothingToProcess(c, st.m, s, pc);
      }
    }
  }

  lemma {:induction false} BarrenRun(c: Config, schedule: seq<Actor>)
    requires Launchable(c) && Sourceless(c) && !SomeMismatch(c)
    ensures Barren(Run(c, Init(c), schedule))
    decreases |schedule|
  {
    if schedule != [] {
      var before := schedule[..|schedule| - 1];
      BarrenRun(c, before);
      BarrenStep(c, before, schedule[|schedule| - 1]);
    }
  }

  lemma BarrenStep(c: Config, before: seq<Actor>, a: Actor)
    requires Launchable(c) && Sourceless(c) && !SomeMismatch(c) && Barren(Run(c, Init(c), before))
    ensures Barren(Step(c, Run(c, Init(c), before), a))
  {
    RunOk(c, before);
    NothingPublished(c, before);
    OnlyBlockZeroReports(c, before);
    var st := Run(c, Init(c), before);
    match a {
      case Sched(s) => if s < |st.scheds| { BarrenSchedStep(c, st, s); }
      case Worker(w) =>
        if w < |st.workers| {
          NothingToRun(c, st.m, w, st.workers[w]);
          WorkerRecordEffect(c, st.m, w, st.workers[w]);
        }
    }
  }

  // -------------------------------------------------------------------------
  // The verdict
  // -------------------------------------------------------------------------

  predicate Reports(m: Shared, code: nat) {
    m.err.Error? && m.err.code == code
  }

  lemma MismatchVerdict(c: Config, schedule: seq<Actor>)
    requires Launchable(c) && Over(c, Run(c, Init(c), schedule).m) && SomeMismatch(c)
    ensures var m := Run(c, Init(c), schedule).m; Reports(m, 5) || Reports(m, 1)
    ensures AllRegistered(c) ==> Reports(Run(c, Init(c), schedule).m, 5)
  {
    MismatchIsFirst(c, schedule);
    CounterChain(c, schedule);
    var m := Run(c, Init(c), schedule).m;
    if m.err.NoError? {
      CleanFinishCertifies(c, schedule);
      assert false;
    }
    ErrorIsTrue(c, schedule);
  }

  lemma SourcelessVerdict(c: Config, schedule: seq<Actor>)
    requires Launchable(c) && Over(c, Run(c, Init(c), schedule).m) && Sourceless(c) && !SomeMismatch(c)
    ensures Run(c, Init(c), schedule).m.err == Error(6, 0)
  {
    BarrenRun(c, schedule);
    NothingPublished(c, schedule);
    RunOk(c, schedule);
    NotPublishedNotFinished(c, Run(c, Init(c), schedule).m, 0);
  }

  lemma SixMeans(c: Config, schedule: seq<Actor>)
    requires Launchable(c) && Reports(Run(c, Init(c), schedule).m, 6)
    ensures Run(c, Init(c), schedule).m.err == Error(6, 0) && Sourceless(c) && !SomeMismatch(c)
  {
    ErrorIsTrue(c, schedule);
    if SomeMismatch(c) {
      MismatchIsFirst(c, schedule);
    }
    forall j | 0 <= j < N(c) ensures c.fanin0[j] > 0 {
      assert !Source(c, j) && !Mismatch(c, j);
    }
  }

  lemma FiveMeans(c: Config, schedule: seq<Actor>)
    requires Launchable(c) && Reports(Run(c, Init(c), schedule).m, 5)
    ensures FirstOfStride(c, Run(c, Init(c), schedule).m.err.task)
  {
    FiveIsFirst(c, schedule);
  }

  /** What the start-up phase makes of the task table. */
  ghost predicate StartUpVerdict(c: Config, m: Shared) {
    && (Reports(m, 6) <==> Sourceless(c) && !SomeMismatch(c)) && (Reports(m, 6) ==> m.err.task == 0)
    && (SomeMismatch(c) ==> Reports(m, 5) || Reports(m, 1))
    && (AllRegistered(c) ==> (Reports(m, 5) <==> SomeMismatch(c)))
    && (Reports(m, 5) ==> FirstOfStride(c, m.err.task))
  }

  lemma VerdictAt(c: Config, schedule: seq<Actor>)
    requires Launchable(c) && Over(c, Run(c, Init(c), schedule).m)
    ensures StartUpVerdict(c, Run(c, Init(c), schedule).m)
  {
    var m := Run(c, Init(c), schedule).m;
    if SomeMismatch(c) {
      MismatchVerdict(c, schedule);
    } else if Sourceless(c) {
      SourcelessVerdict(c, schedule);
    }
    if Reports(m, 6) {
      SixMeans(c, schedule);
    }
    if Reports(m, 5) {
      FiveMeans(c, schedule);
    }
  }

  /**
   Every fair run ends with code 6 for task 0 if and only if the fan-in copies agree
   and no task is a source; with known functions it ends with code 5 if and only if
   the copies differ somewhere, and then names the first difference of a stride.
   */
  lemma FairRunStartsUp(c: Config, turn: nat -> Actor, run: nat -> State) returns (end: nat)
    requires Manned(c) && IsRun(c, turn, run) && Fair(c, turn)
    ensures forall n :: end <= n ==> StartUpVerdict(c, run(n).m)
  {
    end := EventuallyOver(c, turn, run, 0);
    forall n | end <= n ensures StartUpVerdict(c, run(n).m) {
      OverStays(c, turn, run, end, n);
      RunOfPrefix(c, turn, run, n);
      VerdictAt(c, Prefix(turn, n));
    }
  }
}
