/**
 Errors on well-formed task tables.  With any number of scheduler blocks the
 only error that can be recorded is the stall code 7; with one scheduler block
 no error is ever recorded.
 */
module DagAlarms {
  import opened DagModel
  import opened DagInvariant
  import opened DagSteps
  import opened DagTheorems
  import opened DagDiagnosis
  import opened Arithmetic

  // -------------------------------------------------------------------------
  // Any number of scheduler blocks
  // -------------------------------------------------------------------------

  /** On a well-formed table no run records any error but the stall code, for any number of blocks. */
  lemma OnlyStallIsPossible(c: Config, schedule: seq<Actor>, order: seq<nat>)
    requires Launchable(c) && WellFormed(c, order)
    ensures var err := Run(c, Init(c), schedule).m.err; err.Error? ==> err.code == 7
  {
    var err := Run(c, Init(c), schedule).m.err;
    ErrorIsTrue(c, schedule);
    if err.Error? && err.code != 7 {
      NoDefect(c, order, err.code, err.task);
      assert false;
    }
  }

  // -------------------------------------------------------------------------
  // One scheduler block
  // -------------------------------------------------------------------------

  /** Everything published has been handed in, and everything claimed has been counted. */
  ghost predicate Drained(c: Config, m: Shared) {
    m.comp.tail == m.ready.tail && m.comp.head == m.completed && m.completed < N(c)
  }

  /** Everything published has been processed, and it is not everything. */
  ghost predicate Exhausted(c: Config, m: Shared) {
    m.comp.tail == m.ready.tail == m.comp.head == m.completed && m.completed < N(c)
  }

  /** The scheduler holds a completion that is claimed and not yet counted. */
  predicate Busy(pc: SchedPc) {
    match pc
    case PushTicket(_, k) => k.ToProc?
    case PushWait(_, _, k) => k.ToProc?
    case PushWrite(_, _, k) => k.ToProc?
    case PushPublish(_, _, k) => k.ToProc?
    case PopSpin(_, _) => true
    case PopSpinErr(_, _) => true
    case PopRead(_, _) => true
    case PopClear(_, _, _) => true
    case ProcStart(_, _) => true
    case Proc(_, _, _) => true
    case DecRead(_, _, _) => true
    case DecCas(_, _, _, _) => true
    case ProcDone(_, _) => true
    case _ => false
  }

  /** What a lone scheduler knows at each position of its polling loop. */
  ghost predicate Polling(c: Config, m: Shared, pc: SchedPc) {
    match pc
    case LoopError => m.completed < N(c)
    case PopHead(late) => m.completed < N(c) && (late ==> Drained(c, m))
    case PopTail(late, head) => m.completed < N(c) && head == m.comp.head && (late ==> Drained(c, m))
    case PopCas(late, head) => m.completed < N(c) && head == m.comp.head
    case StallTail(again) => m.completed < N(c) && (again ==> Exhausted(c, m))
    case StallFinished(again, pub) => m.completed < N(c) && pub == m.ready.tail && (again ==> Exhausted(c, m))
    case StallClaimed(again, pub, fin) =>
      m.completed < N(c) && pub == m.ready.tail && fin <= m.comp.tail && (again ==> Exhausted(c, m))
    case StallCompleted(again, pub, fin, cla) =>
      m.completed < N(c) && pub == m.ready.tail && fin <= m.comp.tail && cla == m.comp.head &&
      (again ==> Exhausted(c, m))
    case Unready(idx) =>
      Exhausted(c, m) && |m.fanin| == N(c) && forall j :: 0 <= j < idx && j < N(c) ==> m.fanin[j] == 0
    case _ => true
  }

  ghost predicate Lone(c: Config, m: Shared, pc: SchedPc) {
    m.err.NoError? ==>
      && Polling(c, m, pc)
      && (!pc.Fail? ==> m.comp.head == m.completed + if Busy(pc) then 1 else 0)
  }

  /** The counters that a worker step leaves alone. */
  lemma WorkerKeepsCounters(c: Config, m: Shared, w: nat, pc: WorkerPc)
    ensures var m' := WorkerNext(c, m, w, pc).0;
      && m'.ready.tail == m.ready.tail && m'.comp.head == m.comp.head && m'.completed == m.completed
      && m'.fanin == m.fanin && m.comp.tail <= m'.comp.tail
      && (m'.err.NoError? ==> m.err.NoError?)
  {
  }

  lemma TailOrder(c: Config, m: Shared)
    requires Global(c, m)
    ensures m.comp.tail <= m.ready.tail <= N(c)
  {
    SubsetSize(m.h.completes, m.h.published);
  }

  lemma LoneWorkerStep(c: Config, m: Shared, w: nat, wpc: WorkerPc, pc: SchedPc)
    requires Global(c, m) && Lone(c, m, pc) && Global(c, WorkerNext(c, m, w, wpc).0)
    ensures Lone(c, WorkerNext(c, m, w, wpc).0, pc)
  {
    WorkerKeepsCounters(c, m, w, wpc);
    TailOrder(c, m);
    TailOrder(c, WorkerNext(c, m, w, wpc).0);
  }

  lemma LonePop(c: Config, m: Shared, pc: SchedPc)
    requires m.comp.head <= m.comp.tail <= m.ready.tail <= N(c) && Lone(c, m, pc)
    requires pc.PopHead? || pc.PopTail? || pc.PopCas? || pc.PopSpinErr?
    ensures Lone(c, SchedNext(c, m, 0, pc).0, SchedNext(c, m, 0, pc).1)
  {
  }

  lemma LoneStall(c: Config, m: Shared, pc: SchedPc)
    requires m.comp.head <= m.comp.tail <= m.ready.tail <= N(c) && |m.fanin| == N(c) && Lone(c, m, pc)
    requires pc.StallTail? || pc.StallFinished? || pc.StallClaimed? || pc.StallCompleted? || pc.Unready?
    ensures Lone(c, SchedNext(c, m, 0, pc).0, SchedNext(c, m, 0, pc).1)
  {
  }

  lemma LonePush(c: Config, m: Shared, pc: SchedPc)
    requires Lone(c, m, pc)
    requires pc.PushTicket? || pc.PushWait? || pc.PushWrite? || pc.PushPublish? || pc.Fail?
    ensures Lone(c, SchedNext(c, m, 0, pc).0, SchedNext(c, m, 0, pc).1)
  {
  }

  lemma LoneProc(c: Config, m: Shared, pc: SchedPc)
    requires Lone(c, m, pc)
    requires pc.ProcStart? || pc.Proc? || pc.DecRead? || pc.ProcDone?
    ensures Lone(c, SchedNext(c, m, 0, pc).0, SchedNext(c, m, 0, pc).1)
  {
  }

  lemma LoneCas(c: Config, m: Shared, pc: SchedPc)
    requires Lone(c, m, pc) && pc.DecCas?
    ensures Lone(c, SchedNext(c, m, 0, pc).0, SchedNext(c, m, 0, pc).1)
  {
  }

  lemma LoneRest(c: Config, m: Shared, pc: SchedPc)
    requires Lone(c, m, pc)
    requires pc.Scan? || pc.InitAdd? || pc.Barrier? || pc.BarrierErr? || pc.CheckEmpty? || pc.LoopCompleted? ||
             pc.LoopError? || pc.PopSpin? || pc.PopRead? || pc.PopClear? || pc.SchedDone?
    ensures Lone(c, SchedNext(c, m, 0, pc).0, SchedNext(c, m, 0, pc).1)
  {
  }

  lemma LoneSchedStep(c: Config, m: Shared, pc: SchedPc)
    requires Global(c, m) && Lone(c, m, pc)
    ensures Lone(c, SchedNext(c, m, 0, pc).0, SchedNext(c, m, 0, pc).1)
  {
    TailOrder(c, m);
    if pc.PopHead? || pc.PopTail? || pc.PopCas? || pc.PopSpinErr? {
      LonePop(c, m, pc);
    } else if pc.StallTail? || pc.StallFinished? || pc.StallClaimed? || pc.StallCompleted? || pc.Unready? {
      LoneStall(c, m, pc);
    } else if pc.PushTicket? || pc.PushWait? || pc.PushWrite? || pc.PushPublish? || pc.Fail? {
      LonePush(c, m, pc);
    } else if pc.ProcStart? || pc.Proc? || pc.DecRead? || pc.ProcDone? {
      LoneProc(c, m, pc);
    } else if pc.DecCas? {
      LoneCas(c, m, pc);
    } else {
      LoneRest(c, m, pc);
    }
  }

  lemma LoneStep(c: Config, st: State, a: Actor)
    requires Inv(c, st) && S(c) == 1 && Lone(c, st.m, st.scheds[0]) && Inv(c, Step(c, st, a))
    ensures Lone(c, Step(c, st, a).m, Step(c, st, a).scheds[0])
  {
    match a {
      case Sched(s) => if s == 0 { LoneSchedStep(c, st.m, st.scheds[0]); }
      case Worker(w) => if w < |st.workers| { LoneWorkerStep(c, st.m, w, st.workers[w], st.scheds[0]); }
    }
  }

  /** The lone-scheduler facts hold in every reachable state, for every task table. */
  lemma {:induction false} LoneRunOk(c: Config, schedule: seq<Actor>)
    requires Launchable(c) && S(c) == 1
    ensures var st := Run(c, Init(c), schedule); |st.scheds| == 1 && Lone(c, st.m, st.scheds[0])
    decreases |schedule|
  {
    RunOk(c, schedule);
    if schedule != [] {
      var before := schedule[..|schedule| - 1];
      LoneRunOk(c, before);
      RunOk(c, before);
      LoneStep(c, Run(c, Init(c), before), schedule[|schedule| - 1]);
    }
  }

  /** With one scheduler past its scan and not pushing, a task with zero fan-in is published. */
  lemma ZeroIsPublished(c: Config, m: Shared, pc: SchedPc, j: nat)
    requires Global(c, m) && SchedInv(c, m, 0, pc) && S(c) == 1 && m.err.NoError?
    requires 0 in m.h.inited && !pc.PushTicket? && j < N(c) && m.fanin[j] == 0
    ensures j in m.h.published
  {
    InScanUntilInited(c, m, 0, pc);
    assert j % S(c) == 0;
    assert Covered(pc, j);
    assert m.fanin[j] + |m.h.dec[j]| == c.fanin0[j];
  }

  lemma PredsCounted(c: Config, m: Shared, j: nat)
    requires Global(c, m) && m.err.NoError? && ExactFanin(c) && j < N(c) && Preds(c, j) <= m.h.done
    ensures m.fanin[j] == 0
  {
    PredsInDec(c, m, j);
    DecInPreds(c, m, j);
    assert m.h.dec[j] == Preds(c, j);
    assert m.fanin[j] + |m.h.dec[j]| == c.fanin0[j];
  }

  /** If all predecessors are processed, the task is published. */
  lemma ReadyIsPublished(c: Config, m: Shared, pc: SchedPc, j: nat)
    requires Global(c, m) && SchedInv(c, m, 0, pc) && S(c) == 1 && m.err.NoError?
    requires 0 in m.h.inited && !pc.PushTicket? && ExactFanin(c) && j < N(c) && Preds(c, j) <= m.h.done
    ensures j in m.h.published
  {
    PredsCounted(c, m, j);
    ZeroIsPublished(c, m, pc, j);
  }

  lemma ExhaustedIsDone(c: Config, m: Shared)
    requires Global(c, m) && Exhausted(c, m)
    ensures m.h.done == m.h.published
  {
    SubsetSize(m.h.done, m.h.published);
  }

  lemma {:induction false} ExhaustedPublishesAll(c: Config, m: Shared, pc: SchedPc, order: seq<nat>, k: nat)
    requires Global(c, m) && SchedInv(c, m, 0, pc) && S(c) == 1 && m.err.NoError?
    requires 0 in m.h.inited && !pc.PushTicket? && Exhausted(c, m)
    requires ExactFanin(c) && Topological(c, order) && k < |order|
    ensures order[k] in m.h.published
    decreases k
  {
    ExhaustedIsDone(c, m);
    forall p | p in Preds(c, order[k]) ensures p in m.h.done {
      var a := PredecessorIsEarlier(c, order, k, p);
      ExhaustedPublishesAll(c, m, pc, order, a);
    }
    ReadyIsPublished(c, m, pc, order[k]);
  }

  /** A well-formed graph is never exhausted early. */
  lemma NeverExhausted(c: Config, m: Shared, pc: SchedPc, order: seq<nat>)
    requires Global(c, m) && SchedInv(c, m, 0, pc) && S(c) == 1 && m.err.NoError?
    requires 0 in m.h.inited && !pc.PushTicket? && ExactFanin(c) && Topological(c, order)
    ensures !Exhausted(c, m)
  {
    if Exhausted(c, m) {
      forall j: nat | j < N(c) ensures j in m.h.published {
        var a := PlaceOf(c, order, j);
        ExhaustedPublishesAll(c, m, pc, order, a);
      }
      SubsetSize(UpTo(N(c)), m.h.published);
      assert false;
    }
  }

  lemma UnreadyMeans(c: Config, m: Shared, pc: SchedPc)
    requires SchedInv(c, m, 0, pc) && Lone(c, m, pc) && m.err.NoError? && pc.Unready?
    ensures 0 in m.h.inited && Exhausted(c, m)
  {
  }

  /** The scan for an unready task is never reached, so the stall error is never about to be recorded. */
  lemma LoneQuiet(c: Config, m: Shared, pc: SchedPc, order: seq<nat>)
    requires Global(c, m) && SchedInv(c, m, 0, pc) && Lone(c, m, pc) && S(c) == 1
    requires WellFormed(c, order) && m.err.NoError?
    ensures !pc.Unready?
  {
    if pc.Unready? {
      UnreadyMeans(c, m, pc);
      NeverExhausted(c, m, pc, order);
      assert false;
    }
  }

  lemma OnlyUnreadyStalls(c: Config, m: Shared, s: nat, pc: SchedPc)
    requires !pc.Unready?
    ensures SchedNext(c, m, s, pc).1.Fail? ==> SchedNext(c, m, s, pc).1.code != 7
  {
  }

  lemma NoErrorWithoutFail(c: Config, m: Shared, s: nat, pc: SchedPc)
    requires !pc.Fail?
    ensures SchedNext(c, m, s, pc).0.err == m.err
  {
  }

  /** No error is recorded or about to be recorded by a scheduler. */
  ghost predicate Silent(st: State) {
    st.m.err.NoError? && forall s :: 0 <= s < |st.scheds| ==> !st.scheds[s].Fail?
  }

  /** On a well-formed table only the stall code could end the silence. */
  lemma SilentSchedStep(c: Config, st: State, order: seq<nat>, s: nat)
    requires WellFormed(c, order) && Silent(st) && s < |st.scheds| && TrueNext(c, st.m, s, st.scheds[s])
    requires var pc' := SchedNext(c, st.m, s, st.scheds[s]).1; pc'.Fail? ==> pc'.code != 7
    ensures Silent(Step(c, st, Sched(s)))
  {
    var pc' := SchedNext(c, st.m, s, st.scheds[s]).1;
    NoErrorWithoutFail(c, st.m, s, st.scheds[s]);
    if pc'.Fail? {
      NoDefect(c, order, pc'.code, pc'.task);
      assert false;
    }
  }

  lemma SilentWorkerStep(c: Config, st: State, order: seq<nat>, w: nat)
    requires WellFormed(c, order) && Silent(st) && w < |st.workers| && TrueWorker(c, st.workers[w])
    ensures Silent(Step(c, st, Worker(w)))
  {
    if st.workers[w].WFail? {
      assert false;
    }
  }

  lemma LoneNeverStalls(c: Config, st: State, order: seq<nat>)
    requires Inv(c, st) && WellFormed(c, order) && S(c) == 1 && Silent(st) && Lone(c, st.m, st.scheds[0])
    ensures var pc' := SchedNext(c, st.m, 0, st.scheds[0]).1; pc'.Fail? ==> pc'.code != 7
  {
    LoneQuiet(c, st.m, st.scheds[0], order);
    OnlyUnreadyStalls(c, st.m, 0, st.scheds[0]);
  }

  lemma SilentStep(c: Config, before: seq<Actor>, a: Actor, order: seq<nat>)
    requires Launchable(c) && WellFormed(c, order) && S(c) == 1 && Silent(Run(c, Init(c), before))
    ensures Silent(Step(c, Run(c, Init(c), before), a))
  {
    RunOk(c, before);
    LoneRunOk(c, before);
    TruthfulRun(c, before);
    var st := Run(c, Init(c), before);
    match a {
      case Sched(s) =>
        if s == 0 {
          TrueSchedTurn(c, st, 0);
          LoneNeverStalls(c, st, order);
          SilentSchedStep(c, st, order, 0);
        }
      case Worker(w) =>
        if w < |st.workers| {
          SilentWorkerStep(c, st, order, w);
        }
    }
  }

  /** With one scheduler block, no run on a well-formed table ever records an error. */
  lemma {:induction false} NoFalseAlarm(c: Config, schedule: seq<Actor>, order: seq<nat>)
    requires Launchable(c) && WellFormed(c, order) && S(c) == 1
    ensures Silent(Run(c, Init(c), schedule))
    decreases |schedule|
  {
    if schedule != [] {
      var before := schedule[..|schedule| - 1];
      NoFalseAlarm(c, before, order);
      SilentStep(c, before, schedule[|schedule| - 1], order);
    }
  }
}
