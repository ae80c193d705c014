/**
 The invariant of the executor, for every task table and every number of
 blocks: what holds of the shared memory, what each block may rely on at its
 current position, and which changes by other blocks that position survives.
 */
module DagInvariant {
  import opened TicketRing
  import opened DagModel
  import opened Arithmetic

  // -------------------------------------------------------------------------
  // Shared memory
  // -------------------------------------------------------------------------

  ghost predicate Shape(c: Config, m: Shared) {
    && |c.fanin0| == N(c)
    && |m.fanin| == |m.h.owner| == |m.h.dec| == N(c)
    && RingInv(m.ready, N(c), c.capacity)
    && RingInv(m.comp, N(c), c.capacity)
    && m.comp.head <= m.comp.tail
  }

  ghost predicate RanRegistered(c: Config, ran: set<nat>) {
    forall j :: j in ran ==> j < N(c) && c.tasks[j].funcId in c.registered
  }

  /** Each life-cycle set contains the next one, and the counters count them. */
  ghost predicate LifeCycle(c: Config, m: Shared) {
    && m.h.done <= m.h.claimed <= m.h.completes <= m.h.ran <= m.h.popped <= m.h.published
    && (forall j :: j in m.h.published ==> j < N(c))
    && RanRegistered(c, m.h.ran)
    && |m.h.published| == m.ready.tail
    && |m.h.completes| == m.comp.tail
    && |m.h.claimed| == m.comp.head
    && |m.h.done| == m.completed
  }

  /** The values in the rings are the tasks of the life-cycle sets, each once. */
  ghost predicate RingLinks(c: Config, m: Shared)
    requires Shape(c, m)
  {
    && Distinct(m.ready.vals) && Distinct(m.comp.vals)
    && (forall k :: 0 <= k < m.ready.tail ==> m.ready.vals[k] in m.h.published)
    && (forall k :: 0 <= k < m.ready.tail ==> (m.ready.phase[k].Consumed? <==> m.ready.vals[k] in m.h.popped))
    && (forall k :: 0 <= k < m.comp.tail ==> m.comp.vals[k] in m.h.completes)
    && (forall k :: 0 <= k < m.comp.tail ==> (k < m.comp.head <==> m.comp.vals[k] in m.h.claimed))
  }

  /** Conservation of fan-in, and who may publish a task. */
  ghost predicate FaninLaw(c: Config, fanin: seq<nat>, h: History)
    requires |c.fanin0| == |fanin| == |h.owner| == |h.dec| == N(c)
  {
    && (forall j :: 0 <= j < N(c) ==> fanin[j] + |h.dec[j]| == c.fanin0[j])
    && (forall j, p :: 0 <= j < N(c) && p in h.dec[j] ==> p in h.claimed && j in Deps(c, p))
    && (forall j :: 0 <= j < N(c) && h.owner[j] != -1 ==> fanin[j] == 0 && 0 <= h.owner[j] < S(c))
    && (forall j :: 0 <= j < N(c) && j in h.published ==> h.owner[j] != -1)
    && (forall j :: 0 <= j < N(c) && fanin[j] == 0 && h.dec[j] != {} ==> h.owner[j] != -1)
  }

  /** An edge that has been counted down goes forward in publish order. */
  ghost predicate PublishOrder(c: Config, m: Shared)
    requires Shape(c, m) && RingLinks(c, m) && LifeCycle(c, m)
  {
    forall a, b | 0 <= a < m.ready.tail && 0 <= b < m.ready.tail ::
      m.ready.vals[a] in m.h.dec[m.ready.vals[b]] ==> a < b
  }

  ghost predicate AllInited(c: Config, inited: set<nat>) {
    forall s :: 0 <= s < S(c) ==> s in inited
  }

  ghost predicate BarrierLaw(c: Config, initCount: nat, inited: set<nat>, claimed: set<nat>) {
    && |inited| == initCount
    && (forall s :: s in inited ==> s < S(c))
    && (claimed != {} ==> AllInited(c, inited))
  }

  /** Dependent number `i` of `p` is legal and its edge has been counted down. */
  ghost predicate Settled(c: Config, dec: seq<set<nat>>, p: nat, i: nat)
    requires |dec| == N(c) && i < |Deps(c, p)|
  {
    var d := Deps(c, p)[i];
    d < N(c) && d != p && d !in Deps(c, p)[..i] && p in dec[d]
  }

  ghost predicate SettledTo(c: Config, dec: seq<set<nat>>, p: nat, i: nat)
    requires |dec| == N(c)
  {
    i <= |Deps(c, p)| && forall k {:trigger Settled(c, dec, p, k)} :: 0 <= k < i ==> Settled(c, dec, p, k)
  }

  /** Only the first `i` dependents of `p` have been touched. */
  ghost predicate TouchedTo(c: Config, dec: seq<set<nat>>, p: nat, i: nat)
    requires |dec| == N(c)
  {
    i <= |Deps(c, p)| && forall j :: 0 <= j < N(c) && p in dec[j] ==> j in Deps(c, p)[..i]
  }

  /** Without an error, a task counted as completed has settled all its dependents. */
  ghost predicate DoneLaw(c: Config, err: Error, dec: seq<set<nat>>, done: set<nat>)
    requires |dec| == N(c)
  {
    err.NoError? ==> forall p :: p in done ==> InBounds(c, p) && SettledTo(c, dec, p, |Deps(c, p)|)
  }

  ghost predicate Global(c: Config, m: Shared) {
    && Shape(c, m)
    && LifeCycle(c, m)
    && RingLinks(c, m)
    && FaninLaw(c, m.fanin, m.h)
    && PublishOrder(c, m)
    && BarrierLaw(c, m.initCount, m.h.inited, m.h.claimed)
    && DoneLaw(c, m.err, m.h.dec, m.h.done)
  }

  // -------------------------------------------------------------------------
  // Scheduler positions
  // -------------------------------------------------------------------------

  /** The scan has passed task `j` (for the tasks in the stride of the scheduler). */
  predicate Covered(pc: SchedPc, j: nat) {
    match pc
    case Scan(i) => j < i
    case PushTicket(_, ToScan(i)) => j < i
    case PushWait(_, _, ToScan(i)) => j < i
    case PushWrite(_, _, ToScan(i)) => j < i
    case PushPublish(_, _, ToScan(i)) => j < i
    case Fail(_, task, ToScan(i)) => j < i && j != task
    case _ => true
  }

  predicate InScan(pc: SchedPc) {
    match pc
    case Scan(i) => true
    case PushTicket(_, ToScan(i)) => true
    case PushWait(_, _, ToScan(i)) => true
    case PushWrite(_, _, ToScan(i)) => true
    case PushPublish(_, _, ToScan(i)) => true
    case Fail(_, task, ToScan(i)) => true
    case InitAdd => true
    case _ => false
  }

  ghost predicate ScanLaw(c: Config, m: Shared, s: nat, pc: SchedPc)
    requires Shape(c, m)
  {
    forall j :: 0 <= j < N(c) && j % S(c) == s ==>
      && (Covered(pc, j) && m.err.NoError? ==> c.fanin0[j] == c.tasks[j].initialFanin)
      && (Covered(pc, j) && c.fanin0[j] == 0 && c.tasks[j].initialFanin == 0 ==>
            j in m.h.published || (pc.PushTicket? && pc.j == j))
      && (!Covered(pc, j) ==> m.h.owner[j] == -1)
  }

  /** A task that `s` must push is pushed, or is the one being pushed right now. */
  ghost predicate OwnerLaw(c: Config, m: Shared, s: nat, pc: SchedPc)
    requires Shape(c, m)
  {
    forall j :: 0 <= j < N(c) && m.h.owner[j] == s ==> j in m.h.published || (pc.PushTicket? && pc.j == j)
  }

  /** Scheduler `s` has won completion ticket `t` for task `p` and is processing it. */
  ghost predicate Processing(c: Config, m: Shared, s: nat, t: nat, p: nat) {
    Took(m.comp, s, t, p) && p < N(c) && p !in m.h.done
  }

  ghost predicate ContInv(c: Config, m: Shared, s: nat, k: Cont, failing: bool)
    requires Shape(c, m)
  {
    match k
    case ToScan(i) => i % S(c) == s && s !in m.h.inited
    case ToProc(t, p, i) =>
      && AllInited(c, m.h.inited) && Processing(c, m, s, t, p) && InBounds(c, p) && TouchedTo(c, m.h.dec, p, i)
      && (failing || (m.err.NoError? ==> SettledTo(c, m.h.dec, p, i)))
    case ToLoop => s in m.h.inited && (AllInited(c, m.h.inited) || m.err.Error?)
    case ToExit => s in m.h.inited
  }

  /** The pending dependent passed the checks that precede the decrement. */
  ghost predicate Pending(c: Config, m: Shared, s: nat, t: nat, p: nat, i: nat)
    requires Shape(c, m)
  {
    && AllInited(c, m.h.inited) && Processing(c, m, s, t, p) && InBounds(c, p)
    && i < |Deps(c, p)| && TouchedTo(c, m.h.dec, p, i) && (m.err.NoError? ==> SettledTo(c, m.h.dec, p, i))
    && Deps(c, p)[i] < N(c) && Deps(c, p)[i] != p && Deps(c, p)[i] !in Deps(c, p)[..i]
  }

  ghost predicate Untouched(c: Config, dec: seq<set<nat>>, done: set<nat>, p: nat)
    requires |dec| == N(c)
  {
    p !in done && forall j :: 0 <= j < N(c) ==> p !in dec[j]
  }

  ghost predicate SchedLocal(c: Config, m: Shared, s: nat, pc: SchedPc)
    requires Shape(c, m)
  {
    match pc
    case Scan(i) => i % S(c) == s && s !in m.h.inited
    case PushTicket(j, k) =>
      && j < N(c) && m.h.owner[j] == s && j !in m.h.published
      && (k.ToScan? || k.ToProc?) && ContInv(c, m, s, k, false)
    case PushWait(j, t, k) => Holding(m.ready, s, t, j) && ContInv(c, m, s, k, false)
    case PushWrite(j, t, k) => Holding(m.ready, s, t, j) && ContInv(c, m, s, k, false)
    case PushPublish(j, t, k) =>
      Holding(m.ready, s, t, j) && m.ready.queue[t] == j && ContInv(c, m, s, k, false)
    case Fail(code, task, k) =>
      && ContInv(c, m, s, k, true)
      && (k.ToScan? && task < N(c) ==> c.fanin0[task] != c.tasks[task].initialFanin)
    case InitAdd => s !in m.h.inited
    case Barrier => s in m.h.inited
    case BarrierErr => s in m.h.inited
    case CheckEmpty => s in m.h.inited && (AllInited(c, m.h.inited) || m.err.Error?)
    case LoopCompleted => s in m.h.inited && (AllInited(c, m.h.inited) || m.err.Error?)
    case LoopError => s in m.h.inited && (AllInited(c, m.h.inited) || m.err.Error?)
    case PopHead(late) => AllInited(c, m.h.inited)
    case PopTail(late, head) => AllInited(c, m.h.inited) && head <= m.comp.head
    case PopCas(late, head) => AllInited(c, m.h.inited) && head <= m.comp.head && head < m.comp.tail
    case PopSpin(late, t) => AllInited(c, m.h.inited) && Taking(m.comp, s, t) && Untouched(c, m.h.dec, m.h.done, m.comp.vals[t])
    case PopSpinErr(late, t) => AllInited(c, m.h.inited) && Taking(m.comp, s, t) && Untouched(c, m.h.dec, m.h.done, m.comp.vals[t])
    case PopRead(late, t) => AllInited(c, m.h.inited) && Reading(m.comp, s, t) && Untouched(c, m.h.dec, m.h.done, m.comp.vals[t])
    case PopClear(late, t, v) =>
      AllInited(c, m.h.inited) && Reading(m.comp, s, t) && v == m.comp.vals[t] && Untouched(c, m.h.dec, m.h.done, v)
    case ProcStart(t, p) => AllInited(c, m.h.inited) && Processing(c, m, s, t, p) && Untouched(c, m.h.dec, m.h.done, p)
    case Proc(t, p, i) => ContInv(c, m, s, ToProc(t, p, i), false)
    case DecRead(t, p, i) => Pending(c, m, s, t, p, i)
    case DecCas(t, p, i, seen) => Pending(c, m, s, t, p, i) && seen > 0
    case ProcDone(t, p) => ContInv(c, m, s, ToProc(t, p, |Deps(c, p)|), false)
    case StallTail(again) => AllInited(c, m.h.inited)
    case StallFinished(again, pub) => AllInited(c, m.h.inited)
    case StallClaimed(again, pub, fin) => AllInited(c, m.h.inited)
    case StallCompleted(again, pub, fin, cla) => AllInited(c, m.h.inited)
    case Unready(idx) => AllInited(c, m.h.inited)
    case SchedDone => s in m.h.inited
  }

  ghost predicate SchedInv(c: Config, m: Shared, s: nat, pc: SchedPc) {
    && Shape(c, m)
    && s < S(c)
    && SchedLocal(c, m, s, pc)
    && ScanLaw(c, m, s, pc)
    && OwnerLaw(c, m, s, pc)
  }

  // -------------------------------------------------------------------------
  // Worker positions
  // -------------------------------------------------------------------------

  /** Worker `w` carries task `v`, read under ready ticket `t`, and has not stored its output. */
  ghost predicate Carries(c: Config, m: Shared, w: nat, t: nat, v: nat) {
    Took(m.ready, w, t, v) && v < N(c) && v !in m.h.ran
  }

  ghost predicate WorkerInv(c: Config, m: Shared, w: nat, pc: WorkerPc) {
    && Shape(c, m)
    && match pc
       case WPop => true
       case WSpin(t) => t < N(c) && Taking(m.ready, w, t)
       case WSpinErr(t) => t < N(c) && Taking(m.ready, w, t)
       case WRead(t) => Reading(m.ready, w, t)
       case WClear(t, v) => Reading(m.ready, w, t) && v == m.ready.vals[t]
       case WDispatch(t, v) => Carries(c, m, w, t, v)
       case WFail(t, v) => Carries(c, m, w, t, v)
       case WLoad(t, v, args) => Carries(c, m, w, t, v) && c.tasks[v].funcId in c.registered
       case WStore(t, v, args) => Carries(c, m, w, t, v) && c.tasks[v].funcId in c.registered
       case WTicket(t, v) => Took(m.ready, w, t, v) && v in m.h.ran && v !in m.h.completes
       case WPushWait(v, ct) => Holding(m.comp, w, ct, v)
       case WPushWrite(v, ct) => Holding(m.comp, w, ct, v)
       case WPublish(v, ct) => Holding(m.comp, w, ct, v) && m.comp.queue[ct] == v
       case WDone => true
  }

  // -------------------------------------------------------------------------
  // What a block may rely on while others move
  // -------------------------------------------------------------------------

  /** A step keeps the verdict on task `p`. */
  ghost predicate KeepsTask(c: Config, h: History, h': History, p: nat) {
    && |h.dec| == |h'.dec| == N(c)
    && (p in h.done <==> p in h'.done)
    && (forall j :: 0 <= j < N(c) ==> (p in h.dec[j] <==> p in h'.dec[j]))
  }

  ghost predicate Common(c: Config, m: Shared, m': Shared) {
    && Shape(c, m) && Shape(c, m')
    && Grows(m.ready, m'.ready) && Grows(m.comp, m'.comp)
    && (m.err.Error? ==> m'.err == m.err)
    && m.h.inited <= m'.h.inited
    && m.h.published <= m'.h.published
  }

  /** What concerns the completion that scheduler `s` is working on. */
  ghost predicate KeepsWork(c: Config, m: Shared, m': Shared, s: nat) {
    && Common(c, m, m')
    && KeepsTake(m.comp, m'.comp, s)
    && (s in m.h.inited <==> s in m'.h.inited)
    && (forall t :: 0 <= t < m.comp.head && m.comp.takers[t] == s ==> KeepsTask(c, m.h, m'.h, m.comp.vals[t]))
  }

  /** What concerns the tasks that scheduler `s` must publish. */
  ghost predicate KeepsOwned(c: Config, m: Shared, m': Shared, s: nat)
    requires Common(c, m, m')
  {
    && (forall j :: 0 <= j < N(c) ==> (m.h.owner[j] == s <==> m'.h.owner[j] == s))
    && (forall j :: 0 <= j < N(c) && m.h.owner[j] == s && j !in m.h.published ==> j !in m'.h.published)
    && (forall j :: 0 <= j < N(c) && j % S(c) == s && s !in m.h.inited && m.h.owner[j] == -1 ==>
          m'.h.owner[j] == -1)
  }

  ghost predicate RelySched(c: Config, m: Shared, m': Shared, s: nat) {
    && KeepsWork(c, m, m', s)
    && KeepsPush(m.ready, m'.ready, s)
    && KeepsOwned(c, m, m', s)
  }

  ghost predicate RelyWorker(c: Config, m: Shared, m': Shared, w: nat) {
    && Common(c, m, m')
    && KeepsTake(m.ready, m'.ready, w)
    && KeepsPush(m.comp, m'.comp, w)
    && (forall t :: 0 <= t < m.ready.head && t < m.ready.tail && m.ready.takers[t] == w ==>
          && (m.ready.vals[t] in m.h.ran <==> m.ready.vals[t] in m'.h.ran)
          && (m.ready.vals[t] in m.h.completes <==> m.ready.vals[t] in m'.h.completes))
  }

  lemma WorkerStable(c: Config, m: Shared, m': Shared, w: nat, pc: WorkerPc)
    requires WorkerInv(c, m, w, pc) && RelyWorker(c, m, m', w)
    ensures WorkerInv(c, m', w, pc)
  {
  }

  lemma TaskStable(c: Config, h: History, h': History, p: nat, i: nat)
    requires KeepsTask(c, h, h', p)
    ensures TouchedTo(c, h.dec, p, i) ==> TouchedTo(c, h'.dec, p, i)
    ensures SettledTo(c, h.dec, p, i) ==> SettledTo(c, h'.dec, p, i)
  {
    if SettledTo(c, h.dec, p, i) {
      forall k | 0 <= k < i ensures Settled(c, h'.dec, p, k) {
        assert Settled(c, h.dec, p, k);
      }
    }
  }

  lemma ContStable(c: Config, m: Shared, m': Shared, s: nat, k: Cont, failing: bool)
    requires KeepsWork(c, m, m', s) && ContInv(c, m, s, k, failing)
    ensures ContInv(c, m', s, k, failing)
  {
    match k {
      case ToProc(t, p, i) => TaskStable(c, m.h, m'.h, p, i);
      case _ =>
    }
  }

  lemma PushStable(c: Config, m: Shared, m': Shared, s: nat, pc: SchedPc)
    requires RelySched(c, m, m', s) && SchedLocal(c, m, s, pc)
    requires pc.PushTicket? || pc.PushWait? || pc.PushWrite? || pc.PushPublish?
    ensures SchedLocal(c, m', s, pc)
  {
    ContStable(c, m, m', s, pc.k, false);
  }

  lemma PopStable(c: Config, m: Shared, m': Shared, s: nat, pc: SchedPc)
    requires KeepsWork(c, m, m', s) && SchedLocal(c, m, s, pc)
    requires pc.PopSpin? || pc.PopSpinErr? || pc.PopRead? || pc.PopClear? || pc.ProcStart?
    ensures SchedLocal(c, m', s, pc)
  {
    assert KeepsTask(c, m.h, m'.h, m.comp.vals[pc.t]);
  }

  lemma PendingStable(c: Config, m: Shared, m': Shared, s: nat, t: nat, p: nat, i: nat)
    requires KeepsWork(c, m, m', s) && Pending(c, m, s, t, p, i)
    ensures Pending(c, m', s, t, p, i)
  {
    TaskStable(c, m.h, m'.h, p, i);
  }

  lemma SchedLocalStable(c: Config, m: Shared, m': Shared, s: nat, pc: SchedPc)
    requires RelySched(c, m, m', s) && SchedLocal(c, m, s, pc)
    ensures SchedLocal(c, m', s, pc)
  {
    if pc.PushTicket? || pc.PushWait? || pc.PushWrite? || pc.PushPublish? {
      PushStable(c, m, m', s, pc);
    } else if pc.PopSpin? || pc.PopSpinErr? || pc.PopRead? || pc.PopClear? || pc.ProcStart? {
      PopStable(c, m, m', s, pc);
    } else if pc.DecRead? || pc.DecCas? {
      PendingStable(c, m, m', s, pc.t, pc.p, pc.i);
    } else if pc.Fail? {
      ContStable(c, m, m', s, pc.k, true);
    } else if pc.Proc? {
      ContStable(c, m, m', s, ToProc(pc.t, pc.p, pc.i), false);
    } else if pc.ProcDone? {
      ContStable(c, m, m', s, ToProc(pc.t, pc.p, |Deps(c, pc.p)|), false);
    }
  }

  /** The scan and ownership laws survive a step that neither assigns nor loses a task. */
  lemma LawsKept(c: Config, m: Shared, m': Shared, s: nat, pc: SchedPc, pc': SchedPc)
    requires Shape(c, m) && Shape(c, m') && ScanLaw(c, m, s, pc) && OwnerLaw(c, m, s, pc)
    requires m'.h.owner == m.h.owner && m.h.published <= m'.h.published && (m.err.Error? ==> m'.err.Error?)
    requires pc.PushTicket? ==> pc.j in m'.h.published
    requires forall j :: Covered(pc', j) <==> Covered(pc, j)
    ensures ScanLaw(c, m', s, pc') && OwnerLaw(c, m', s, pc')
  {
  }

  /** Once the error is recorded, the checks that only hold without one are waived. */
  lemma ContFailed(c: Config, m: Shared, s: nat, k: Cont)
    requires Shape(c, m) && ContInv(c, m, s, k, true) && m.err.Error?
    ensures ContInv(c, m, s, k, false)
  {
  }

  lemma FailedLaws(c: Config, m: Shared, m': Shared, s: nat, code: nat, task: nat, k: Cont)
    requires Shape(c, m) && Shape(c, m') && m'.h == m.h && m'.err.Error?
    requires ScanLaw(c, m, s, Fail(code, task, k)) && OwnerLaw(c, m, s, Fail(code, task, k))
    requires k.ToScan? && task < N(c) ==> c.fanin0[task] != c.tasks[task].initialFanin
    ensures ScanLaw(c, m', s, Resume(k)) && OwnerLaw(c, m', s, Resume(k))
  {
    forall j | 0 <= j < N(c) && j % S(c) == s && !Covered(Resume(k), j)
      ensures !Covered(Fail(code, task, k), j)
    {
      assert k.ToScan?;
    }
    forall j | 0 <= j < N(c) && j % S(c) == s && Covered(Resume(k), j) && c.fanin0[j] == c.tasks[j].initialFanin
      ensures Covered(Fail(code, task, k), j)
    {
    }
  }

  lemma ResumeOk(c: Config, m: Shared, s: nat, k: Cont)
    requires Shape(c, m) && s < S(c) && ContInv(c, m, s, k, false)
    requires ScanLaw(c, m, s, Resume(k)) && OwnerLaw(c, m, s, Resume(k))
    ensures SchedInv(c, m, s, Resume(k))
  {
  }

  /** A scheduler is in its scan exactly while it has not announced its end. */
  lemma InScanUntilInited(c: Config, m: Shared, s: nat, pc: SchedPc)
    requires SchedInv(c, m, s, pc)
    ensures InScan(pc) <==> s !in m.h.inited
  {
  }

  lemma SchedStable(c: Config, m: Shared, m': Shared, s: nat, pc: SchedPc)
    requires SchedInv(c, m, s, pc) && RelySched(c, m, m', s)
    ensures SchedInv(c, m', s, pc)
  {
    SchedLocalStable(c, m, m', s, pc);
    InScanUntilInited(c, m, s, pc);
  }
}
