/**
 No ticket is lost, with any number of scheduler and worker blocks: while no
 error is recorded, every ticket that a block has drawn is finished or is the
 one the block is working on.
 */
module DagProgress {
  import opened TicketRing
  import opened DagModel
  import opened DagInvariant
  import opened DagSteps
  import opened DagTheorems
  import opened Arithmetic

  predicate HoldsReady(pc: WorkerPc, t: nat) {
    match pc
    case WSpin(u) => u == t
    case WSpinErr(u) => u == t
    case WRead(u) => u == t
    case WClear(u, _) => u == t
    case WDispatch(u, _) => u == t
    case WFail(u, _) => u == t
    case WLoad(u, _, _) => u == t
    case WStore(u, _, _) => u == t
    case WTicket(u, _) => u == t
    case _ => false
  }

  predicate HoldsCompletion(pc: WorkerPc, t: nat) {
    match pc
    case WPushWait(_, u) => u == t
    case WPushWrite(_, u) => u == t
    case WPublish(_, u) => u == t
    case _ => false
  }

  predicate HoldsPush(pc: SchedPc, t: nat) {
    match pc
    case PushWait(_, u, _) => u == t
    case PushWrite(_, u, _) => u == t
    case PushPublish(_, u, _) => u == t
    case _ => false
  }

  /** The scheduler works on completion ticket `t`, or is about to record an error. */
  predicate HoldsClaim(pc: SchedPc, t: nat) {
    match pc
    case PopSpin(_, u) => u == t
    case PopSpinErr(_, u) => u == t
    case PopRead(_, u) => u == t
    case PopClear(_, u, _) => u == t
    case ProcStart(u, _) => u == t
    case Proc(u, _, _) => u == t
    case DecRead(u, _, _) => u == t
    case DecCas(u, _, _, _) => u == t
    case ProcDone(u, _) => u == t
    case PushTicket(_, ToProc(u, _, _)) => u == t
    case PushWait(_, _, ToProc(u, _, _)) => u == t
    case PushWrite(_, _, ToProc(u, _, _)) => u == t
    case PushPublish(_, _, ToProc(u, _, _)) => u == t
    case Fail(_, _, _) => true
    case _ => false
  }

  /** The tickets of worker `w`. */
  ghost predicate WorkerLive(c: Config, m: Shared, w: nat, pc: WorkerPc)
    requires Shape(c, m)
  {
    m.err.NoError? ==>
      && (forall t :: 0 <= t < m.ready.head && t < N(c) && m.ready.takers[t] == w ==>
            (t < m.ready.tail && m.ready.vals[t] in m.h.completes) || HoldsReady(pc, t))
      && (forall t :: 0 <= t < m.comp.tail && m.comp.pushers[t] == w && m.comp.phase[t].Reserved? ==>
            HoldsCompletion(pc, t))
      && (pc.WDone? ==> m.ready.head >= N(c))
  }

  /** The ready tickets of scheduler `s` that are not published yet. */
  ghost predicate PushLive(c: Config, m: Shared, s: nat, pc: SchedPc)
    requires Shape(c, m)
  {
    forall t :: 0 <= t < m.ready.tail && m.ready.pushers[t] == s && m.ready.phase[t].Reserved? ==> HoldsPush(pc, t)
  }

  /** The completions that scheduler `s` has claimed. */
  ghost predicate ClaimLive(c: Config, m: Shared, s: nat, pc: SchedPc)
    requires Shape(c, m)
  {
    m.err.NoError? ==>
      forall t :: 0 <= t < m.comp.head && m.comp.takers[t] == s ==> m.comp.vals[t] in m.h.done || HoldsClaim(pc, t)
  }

  /** A scheduler leaves its loop only when the run is over. */
  predicate ExitLive(c: Config, m: Shared, pc: SchedPc) {
    match pc
    case SchedDone => m.err.Error? || m.completed >= N(c)
    case PushTicket(_, k) => k.ToScan? || k.ToProc?
    case PushWait(_, _, k) => k.ToScan? || k.ToProc?
    case PushWrite(_, _, k) => k.ToScan? || k.ToProc?
    case PushPublish(_, _, k) => k.ToScan? || k.ToProc?
    case _ => true
  }

  ghost predicate SchedLive(c: Config, m: Shared, s: nat, pc: SchedPc)
    requires Shape(c, m)
  {
    PushLive(c, m, s, pc) && ClaimLive(c, m, s, pc) && ExitLive(c, m, pc)
  }

  ghost predicate AllBelow(s: seq<nat>, n: nat) {
    forall i :: 0 <= i < |s| ==> s[i] < n
  }

  /** The tickets were drawn by blocks of the launch. */
  ghost predicate Drawn(c: Config, m: Shared) {
    && AllBelow(m.ready.takers, c.workerBlocks) && AllBelow(m.comp.pushers, c.workerBlocks)
    && AllBelow(m.ready.pushers, S(c)) && AllBelow(m.comp.takers, S(c))
  }

  ghost predicate Live(c: Config, st: State)
    requires Inv(c, st)
  {
    && (forall s :: 0 <= s < |st.scheds| ==> SchedLive(c, st.m, s, st.scheds[s]))
    && (forall w :: 0 <= w < |st.workers| ==> WorkerLive(c, st.m, w, st.workers[w]))
    && Drawn(c, st.m)
  }

  // -------------------------------------------------------------------------
  // Steps of a scheduler
  // -------------------------------------------------------------------------

  lemma SchedEffectOnWorkers(c: Config, m: Shared, s: nat, pc: SchedPc)
    requires Shape(c, m) && Shape(c, SchedNext(c, m, s, pc).0) && Common(c, m, SchedNext(c, m, s, pc).0)
    ensures var m' := SchedNext(c, m, s, pc).0;
      && m'.ready.takers == m.ready.takers && m'.comp.pushers == m.comp.pushers
      && m'.h.completes == m.h.completes
      && (forall t :: 0 <= t < m.comp.tail && m'.comp.phase[t].Reserved? ==> m.comp.phase[t].Reserved?)
  {
  }

  lemma SchedKeepsWorkerLive(c: Config, m: Shared, s: nat, pc: SchedPc, w: nat, wpc: WorkerPc)
    requires Shape(c, m) && WorkerLive(c, m, w, wpc)
    requires Shape(c, SchedNext(c, m, s, pc).0) && Common(c, m, SchedNext(c, m, s, pc).0)
    ensures WorkerLive(c, SchedNext(c, m, s, pc).0, w, wpc)
  {
    SchedEffectOnWorkers(c, m, s, pc);
  }

  predicate AtPush(pc: SchedPc) {
    pc.PushTicket? || pc.PushWait? || pc.PushWrite? || pc.PushPublish?
  }

  lemma PushKeepsPushes(c: Config, m: Shared, s: nat, pc: SchedPc)
    requires Shape(c, m) && PushLive(c, m, s, pc) && Shape(c, SchedNext(c, m, s, pc).0) && AtPush(pc)
    ensures PushLive(c, SchedNext(c, m, s, pc).0, s, SchedNext(c, m, s, pc).1)
  {
  }

  lemma OthersKeepReady(c: Config, m: Shared, s: nat, pc: SchedPc)
    requires !AtPush(pc)
    ensures SchedNext(c, m, s, pc).0.ready == m.ready
  {
  }

  lemma OwnPushes(c: Config, m: Shared, s: nat, pc: SchedPc)
    requires Shape(c, m) && PushLive(c, m, s, pc) && Shape(c, SchedNext(c, m, s, pc).0)
    ensures PushLive(c, SchedNext(c, m, s, pc).0, s, SchedNext(c, m, s, pc).1)
  {
    if AtPush(pc) {
      PushKeepsPushes(c, m, s, pc);
    } else {
      OthersKeepReady(c, m, s, pc);
    }
  }

  /** A step of `s` leaves the pushes of another scheduler `u` alone. */
  lemma OtherPushes(c: Config, m: Shared, s: nat, pc: SchedPc, u: nat, upc: SchedPc)
    requires Shape(c, m) && PushLive(c, m, u, upc) && Shape(c, SchedNext(c, m, s, pc).0) && u != s
    ensures PushLive(c, SchedNext(c, m, s, pc).0, u, upc)
  {
    if !AtPush(pc) {
      OthersKeepReady(c, m, s, pc);
    }
  }

  /** Only a claim draws a completion ticket, and only a retirement counts a task. */
  lemma ClaimEffect(c: Config, m: Shared, s: nat, pc: SchedPc)
    ensures var m' := SchedNext(c, m, s, pc).0;
      && m'.comp.vals == m.comp.vals
      && m'.comp.head == m.comp.head + (if pc.PopCas? && pc.head == m.comp.head then 1 else 0)
      && m'.comp.takers == m.comp.takers + (if pc.PopCas? && pc.head == m.comp.head then [s] else [])
      && m'.h.done == m.h.done + (if pc.ProcDone? then {pc.p} else {})
      && (m'.err.NoError? ==> m.err.NoError? && !pc.Fail?)
  {
  }

  /** Apart from the retirement of its task, a scheduler goes on holding its claim. */
  lemma KeepsHolding(c: Config, m: Shared, s: nat, pc: SchedPc, t: nat)
    requires HoldsClaim(pc, t) && m.err.NoError? && !pc.Fail? && !pc.ProcDone?
    ensures HoldsClaim(SchedNext(c, m, s, pc).1, t)
  {
  }

  lemma RetiredIsHeld(c: Config, m: Shared, s: nat, pc: SchedPc)
    requires SchedInv(c, m, s, pc) && pc.ProcDone?
    ensures pc.t < m.comp.tail && m.comp.vals[pc.t] == pc.p
  {
  }

  lemma OwnClaims(c: Config, m: Shared, s: nat, pc: SchedPc)
    requires SchedInv(c, m, s, pc) && ClaimLive(c, m, s, pc) && Shape(c, SchedNext(c, m, s, pc).0)
    ensures ClaimLive(c, SchedNext(c, m, s, pc).0, s, SchedNext(c, m, s, pc).1)
  {
    var (m', pc') := SchedNext(c, m, s, pc);
    ClaimEffect(c, m, s, pc);
    if m'.err.NoError? {
      forall t | 0 <= t < m'.comp.head && m'.comp.takers[t] == s
        ensures m'.comp.vals[t] in m'.h.done || HoldsClaim(pc', t)
      {
        if t < m.comp.head && m.comp.vals[t] !in m.h.done {
          if pc.ProcDone? {
            RetiredIsHeld(c, m, s, pc);
          } else {
            KeepsHolding(c, m, s, pc, t);
          }
        }
      }
    }
  }

  lemma OtherClaims(c: Config, m: Shared, s: nat, pc: SchedPc, u: nat, upc: SchedPc)
    requires Shape(c, m) && ClaimLive(c, m, u, upc) && Shape(c, SchedNext(c, m, s, pc).0) && u != s
    ensures ClaimLive(c, SchedNext(c, m, s, pc).0, u, upc)
  {
    ClaimEffect(c, m, s, pc);
  }

  lemma OwnExit(c: Config, m: Shared, s: nat, pc: SchedPc)
    requires ExitLive(c, m, pc)
    ensures ExitLive(c, SchedNext(c, m, s, pc).0, SchedNext(c, m, s, pc).1)
  {
  }

  lemma OtherExit(c: Config, m: Shared, s: nat, pc: SchedPc, upc: SchedPc)
    requires ExitLive(c, m, upc)
    ensures ExitLive(c, SchedNext(c, m, s, pc).0, upc)
  {
  }

  lemma SchedDraws(c: Config, m: Shared, s: nat, pc: SchedPc)
    requires Drawn(c, m) && s < S(c)
    ensures Drawn(c, SchedNext(c, m, s, pc).0)
  {
  }

  lemma SchedKeepsLive(c: Config, m: Shared, s: nat, pc: SchedPc, u: nat, upc: SchedPc)
    requires SchedInv(c, m, s, pc) && SchedLive(c, m, u, upc) && (u == s ==> upc == pc)
    requires Shape(c, SchedNext(c, m, s, pc).0)
    ensures SchedLive(c, SchedNext(c, m, s, pc).0, u, if u == s then SchedNext(c, m, s, pc).1 else upc)
  {
    if u == s {
      OwnPushes(c, m, s, pc);
      OwnClaims(c, m, s, pc);
      OwnExit(c, m, s, pc);
    } else {
      OtherPushes(c, m, s, pc, u, upc);
      OtherClaims(c, m, s, pc, u, upc);
      OtherExit(c, m, s, pc, upc);
    }
  }

  lemma SchedStepCommon(c: Config, m: Shared, s: nat, pc: SchedPc)
    requires Global(c, m) && SchedInv(c, m, s, pc)
    ensures Common(c, m, SchedNext(c, m, s, pc).0)
  {
    SchedStepOk(c, m, s, pc);
    assert RelyWorker(c, m, SchedNext(c, m, s, pc).0, 0);
  }

  lemma LiveSchedStep(c: Config, st: State, s: nat)
    requires Inv(c, st) && Live(c, st) && s < |st.scheds|
    ensures Inv(c, Step(c, st, Sched(s))) && Live(c, Step(c, st, Sched(s)))
  {
    StepOk(c, st, Sched(s));
    var st' := Step(c, st, Sched(s));
    SchedStepCommon(c, st.m, s, st.scheds[s]);
    SchedDraws(c, st.m, s, st.scheds[s]);
    forall u | 0 <= u < |st.scheds| ensures SchedLive(c, st'.m, u, st'.scheds[u]) {
      SchedKeepsLive(c, st.m, s, st.scheds[s], u, st.scheds[u]);
    }
    forall w | 0 <= w < |st.workers| ensures WorkerLive(c, st'.m, w, st'.workers[w]) {
      SchedKeepsWorkerLive(c, st.m, s, st.scheds[s], w, st.workers[w]);
    }
  }

  // -------------------------------------------------------------------------
  // Steps of a worker
  // -------------------------------------------------------------------------

  lemma WorkerKeepsPushes(c: Config, m: Shared, w: nat, wpc: WorkerPc, s: nat, pc: SchedPc)
    requires Shape(c, m) && PushLive(c, m, s, pc) && Shape(c, WorkerNext(c, m, w, wpc).0)
    ensures PushLive(c, WorkerNext(c, m, w, wpc).0, s, pc)
  {
  }

  lemma WorkerKeepsClaims(c: Config, m: Shared, w: nat, wpc: WorkerPc, s: nat, pc: SchedPc)
    requires Shape(c, m) && ClaimLive(c, m, s, pc) && Shape(c, WorkerNext(c, m, w, wpc).0)
    ensures ClaimLive(c, WorkerNext(c, m, w, wpc).0, s, pc)
  {
  }

  lemma WorkerKeepsSchedLive(c: Config, m: Shared, w: nat, wpc: WorkerPc, s: nat, pc: SchedPc)
    requires Shape(c, m) && SchedLive(c, m, s, pc) && Shape(c, WorkerNext(c, m, w, wpc).0)
    ensures SchedLive(c, WorkerNext(c, m, w, wpc).0, s, pc)
  {
    WorkerKeepsPushes(c, m, w, wpc, s, pc);
    WorkerKeepsClaims(c, m, w, wpc, s, pc);
  }

  lemma WorkerKeepsOther(c: Config, m: Shared, w: nat, pc: WorkerPc, u: nat, upc: WorkerPc)
    requires Shape(c, m) && WorkerLive(c, m, u, upc) && u != w
    requires Shape(c, WorkerNext(c, m, w, pc).0) && Common(c, m, WorkerNext(c, m, w, pc).0)
    ensures WorkerLive(c, WorkerNext(c, m, w, pc).0, u, upc)
  {
  }

  lemma PublishKeepsOwn(c: Config, m: Shared, w: nat, v: nat, ct: nat)
    requires WorkerInv(c, m, w, WPublish(v, ct)) && WorkerLive(c, m, w, WPublish(v, ct))
    requires Shape(c, WorkerNext(c, m, w, WPublish(v, ct)).0)
    ensures WorkerLive(c, WorkerNext(c, m, w, WPublish(v, ct)).0, w, WPop)
  {
    SlotIsTicket(N(c), c.capacity, ct);
  }

  lemma DrawKeepsOwn(c: Config, m: Shared, w: nat)
    requires Shape(c, m) && WorkerLive(c, m, w, WPop) && Shape(c, WorkerNext(c, m, w, WPop).0)
    ensures WorkerLive(c, WorkerNext(c, m, w, WPop).0, w, WorkerNext(c, m, w, WPop).1)
  {
  }

  lemma TicketKeepsOwn(c: Config, m: Shared, w: nat, t: nat, v: nat)
    requires WorkerInv(c, m, w, WTicket(t, v)) && WorkerLive(c, m, w, WTicket(t, v))
    requires Shape(c, WorkerNext(c, m, w, WTicket(t, v)).0)
    ensures WorkerLive(c, WorkerNext(c, m, w, WTicket(t, v)).0, w, WorkerNext(c, m, w, WTicket(t, v)).1)
  {
  }

  lemma WorkerKeepsOwn(c: Config, m: Shared, w: nat, pc: WorkerPc)
    requires WorkerInv(c, m, w, pc) && WorkerLive(c, m, w, pc) && Shape(c, WorkerNext(c, m, w, pc).0)
    ensures WorkerLive(c, WorkerNext(c, m, w, pc).0, w, WorkerNext(c, m, w, pc).1)
  {
    if pc.WPublish? {
      PublishKeepsOwn(c, m, w, pc.v, pc.ct);
    } else if pc.WPop? {
      DrawKeepsOwn(c, m, w);
    } else if pc.WTicket? {
      TicketKeepsOwn(c, m, w, pc.t, pc.v);
    } else {
      OtherKeepsOwn(c, m, w, pc);
    }
  }

  lemma OtherKeepsOwn(c: Config, m: Shared, w: nat, pc: WorkerPc)
    requires Shape(c, m) && WorkerLive(c, m, w, pc) && Shape(c, WorkerNext(c, m, w, pc).0)
    requires !pc.WPublish? && !pc.WPop? && !pc.WTicket?
    ensures WorkerLive(c, WorkerNext(c, m, w, pc).0, w, WorkerNext(c, m, w, pc).1)
  {
  }

  lemma WorkerDraws(c: Config, m: Shared, w: nat, pc: WorkerPc)
    requires w < c.workerBlocks && Drawn(c, m)
    ensures Drawn(c, WorkerNext(c, m, w, pc).0)
  {
  }

  lemma LiveWorkers(c: Config, st: State, w: nat)
    requires Inv(c, st) && Live(c, st) && w < |st.workers|
    requires Common(c, st.m, Step(c, st, Worker(w)).m)
    ensures var st' := Step(c, st, Worker(w));
      forall u :: 0 <= u < |st'.workers| ==> WorkerLive(c, st'.m, u, st'.workers[u])
  {
    var st' := Step(c, st, Worker(w));
    forall u | 0 <= u < |st.workers| ensures WorkerLive(c, st'.m, u, st'.workers[u]) {
      if u == w {
        WorkerKeepsOwn(c, st.m, w, st.workers[w]);
      } else {
        WorkerKeepsOther(c, st.m, w, st.workers[w], u, st.workers[u]);
      }
    }
  }

  lemma WorkerStepCommon(c: Config, m: Shared, w: nat, pc: WorkerPc)
    requires Global(c, m) && WorkerInv(c, m, w, pc)
    ensures Common(c, m, WorkerNext(c, m, w, pc).0)
  {
    WorkerStepOk(c, m, w, pc);
    assert RelySched(c, m, WorkerNext(c, m, w, pc).0, 0);
  }

  lemma LiveScheds(c: Config, st: State, w: nat)
    requires Inv(c, st) && Live(c, st) && w < |st.workers| && Shape(c, Step(c, st, Worker(w)).m)
    ensures var st' := Step(c, st, Worker(w));
      forall s :: 0 <= s < |st'.scheds| ==> SchedLive(c, st'.m, s, st'.scheds[s])
  {
    var st' := Step(c, st, Worker(w));
    forall s | 0 <= s < |st.scheds| ensures SchedLive(c, st'.m, s, st'.scheds[s]) {
      WorkerKeepsSchedLive(c, st.m, w, st.workers[w], s, st.scheds[s]);
    }
  }

  lemma LiveWorkerStep(c: Config, st: State, w: nat)
    requires Inv(c, st) && Live(c, st) && w < |st.workers|
    ensures Inv(c, Step(c, st, Worker(w))) && Live(c, Step(c, st, Worker(w)))
  {
    StepOk(c, st, Worker(w));
    WorkerStepCommon(c, st.m, w, st.workers[w]);
    WorkerDraws(c, st.m, w, st.workers[w]);
    LiveScheds(c, st, w);
    LiveWorkers(c, st, w);
  }

  lemma LiveInit(c: Config)
    requires Launchable(c)
    ensures Inv(c, Init(c)) && Live(c, Init(c))
  {
    InitOk(c);
  }

  // -------------------------------------------------------------------------
  // When nobody can do anything but poll
  // -------------------------------------------------------------------------

  /** The worker has returned, or waits for a ticket that is not published. */
  predicate Waiting(c: Config, ready: Ring, pc: WorkerPc) {
    match pc
    case WDone => true
    case WSpin(t) => FlagOf(ready, c.capacity, t) != t + 1
    case WSpinErr(t) => FlagOf(ready, c.capacity, t) != t + 1
    case _ => false
  }

  /** The scheduler only polls, or waits for a completion or for the other scans. */
  predicate Passive(c: Config, m: Shared, pc: SchedPc) {
    match pc
    case LoopCompleted => true
    case LoopError => true
    case PopHead(_) => true
    case PopTail(_, _) => true
    case PopCas(_, _) => true
    case StallTail(_) => true
    case StallFinished(_, _) => true
    case StallClaimed(_, _, _) => true
    case StallCompleted(_, _, _, _) => true
    case Unready(_) => true
    case SchedDone => true
    case PopSpin(_, t) => FlagOf(m.comp, c.capacity, t) != t + 1
    case PopSpinErr(_, t) => FlagOf(m.comp, c.capacity, t) != t + 1
    case Barrier => m.initCount < S(c)
    case BarrierErr => m.initCount < S(c)
    case _ => false
  }

  predicate Idle(c: Config, st: State) {
    && (forall s :: 0 <= s < |st.scheds| ==> Passive(c, st.m, st.scheds[s]))
    && (forall w :: 0 <= w < |st.workers| ==> Waiting(c, st.m.ready, st.workers[w]))
  }

  /** An unconsumed ready ticket that a waiting worker holds is not published. */
  lemma WaitingIsUnpublished(c: Config, m: Shared, w: nat, pc: WorkerPc, t: nat)
    requires WorkerInv(c, m, w, pc) && Waiting(c, m.ready, pc) && HoldsReady(pc, t) && t < m.ready.tail
    ensures m.ready.phase[t].Reserved?
  {
    FlagMeansPublished(m.ready, N(c), c.capacity, t);
  }

  lemma PassiveHoldsNone(c: Config, m: Shared, pc: SchedPc, t: nat)
    requires Passive(c, m, pc)
    ensures !HoldsPush(pc, t)
    ensures HoldsClaim(pc, t) ==> (pc.PopSpin? || pc.PopSpinErr?) && pc.t == t
  {
  }

  /** In an idle state every drawn ready ticket is published. */
  lemma NoneReserved(c: Config, st: State, t: nat)
    requires Inv(c, st) && Live(c, st) && Idle(c, st) && t < st.m.ready.tail
    ensures !st.m.ready.phase[t].Reserved?
  {
    var s := st.m.ready.pushers[t];
    assert SchedLive(c, st.m, s, st.scheds[s]);
    PassiveHoldsNone(c, st.m, st.scheds[s], t);
  }

  /** If all blocks wait, every published task has been taken. */
  lemma IdleTookAll(c: Config, st: State)
    requires Inv(c, st) && Live(c, st) && Idle(c, st) && st.m.err.NoError? && c.workerBlocks >= 1
    ensures st.m.ready.tail <= st.m.ready.head
  {
    var pc := st.workers[0];
    assert WorkerInv(c, st.m, 0, pc) && WorkerLive(c, st.m, 0, pc) && Waiting(c, st.m.ready, pc);
    if (pc.WSpin? || pc.WSpinErr?) && pc.t < st.m.ready.tail {
      NoneReserved(c, st, pc.t);
      WaitingIsUnpublished(c, st.m, 0, pc, pc.t);
      assert false;
    }
  }

  lemma IdleHandedIn(c: Config, st: State, k: nat)
    requires Inv(c, st) && Live(c, st) && Idle(c, st) && st.m.err.NoError?
    requires k < st.m.ready.tail && k < st.m.ready.head
    ensures st.m.ready.vals[k] in st.m.h.completes
  {
    var w := st.m.ready.takers[k];
    assert WorkerLive(c, st.m, w, st.workers[w]) && WorkerInv(c, st.m, w, st.workers[w]);
    if HoldsReady(st.workers[w], k) {
      NoneReserved(c, st, k);
      WaitingIsUnpublished(c, st.m, w, st.workers[w], k);
      assert false;
    }
  }

  lemma WaitingHoldsNone(c: Config, ready: Ring, pc: WorkerPc, t: nat)
    requires Waiting(c, ready, pc)
    ensures !HoldsCompletion(pc, t)
  {
  }

  lemma IdleAllVisible(c: Config, st: State, t: nat)
    requires Inv(c, st) && Live(c, st) && Idle(c, st) && st.m.err.NoError? && t < st.m.comp.tail
    ensures !st.m.comp.phase[t].Reserved?
  {
    var w := st.m.comp.pushers[t];
    assert WorkerLive(c, st.m, w, st.workers[w]);
    WaitingHoldsNone(c, st.m.ready, st.workers[w], t);
  }

  /** In an idle state everything published has been handed in. */
  lemma IdleIsHandedIn(c: Config, st: State)
    requires Inv(c, st) && Live(c, st) && Idle(c, st) && st.m.err.NoError? && c.workerBlocks >= 1
    ensures st.m.comp.tail == st.m.ready.tail
  {
    IdleTookAll(c, st);
    forall j | j in st.m.h.published ensures j in st.m.h.completes {
      Positions(st.m.ready.vals, st.m.h.published);
      var k :| 0 <= k < st.m.ready.tail && st.m.ready.vals[k] == j;
      IdleHandedIn(c, st, k);
    }
    SubsetSize(st.m.h.published, st.m.h.completes);
    SubsetSize(st.m.h.completes, st.m.h.published);
  }

  lemma SpinsOnClaim(c: Config, m: Shared, s: nat, pc: SchedPc)
    requires SchedInv(c, m, s, pc) && (pc.PopSpin? || pc.PopSpinErr?)
    ensures pc.t < m.comp.tail && !m.comp.phase[pc.t].Consumed?
  {
  }

  /** In an idle state no scheduler waits for a completion to become visible. */
  lemma IdleNeverSpins(c: Config, st: State, s: nat)
    requires Inv(c, st) && Live(c, st) && Idle(c, st) && st.m.err.NoError? && s < |st.scheds|
    ensures !st.scheds[s].PopSpin? && !st.scheds[s].PopSpinErr?
  {
    var pc := st.scheds[s];
    assert Passive(c, st.m, pc);
    if pc.PopSpin? || pc.PopSpinErr? {
      SpinsOnClaim(c, st.m, s, pc);
      IdleAllVisible(c, st, pc.t);
      FlagMeansPublished(st.m.comp, N(c), c.capacity, pc.t);
      assert false;
    }
  }

  /** In an idle state every claimed completion has been counted. */
  lemma IdleIsCounted(c: Config, st: State)
    requires Inv(c, st) && Live(c, st) && Idle(c, st) && st.m.err.NoError?
    ensures st.m.comp.head == st.m.completed
  {
    forall j | j in st.m.h.claimed ensures j in st.m.h.done {
      Positions(st.m.comp.vals, st.m.h.completes);
      var k :| 0 <= k < st.m.comp.tail && st.m.comp.vals[k] == j;
      IdleClaimDone(c, st, k);
    }
    SubsetSize(st.m.h.claimed, st.m.h.done);
    SubsetSize(st.m.h.done, st.m.h.claimed);
  }

  lemma IdleClaimDone(c: Config, st: State, k: nat)
    requires Inv(c, st) && Live(c, st) && Idle(c, st) && st.m.err.NoError? && k < st.m.comp.head
    ensures st.m.comp.vals[k] in st.m.h.done
  {
    var s := st.m.comp.takers[k];
    assert SchedLive(c, st.m, s, st.scheds[s]);
    IdleNeverSpins(c, st, s);
    PassiveHoldsNone(c, st.m, st.scheds[s], k);
  }

  lemma PassiveIsInited(c: Config, m: Shared, s: nat, pc: SchedPc)
    requires SchedInv(c, m, s, pc) && Passive(c, m, pc)
    ensures s in m.h.inited
  {
    InScanUntilInited(c, m, s, pc);
  }

  /** In an idle state the barrier is open. */
  lemma IdleIsOpen(c: Config, st: State)
    requires Inv(c, st) && Idle(c, st)
    ensures AllInited(c, st.m.h.inited) && st.m.initCount >= S(c)
  {
    forall s | 0 <= s < S(c) ensures s in st.m.h.inited {
      PassiveIsInited(c, st.m, s, st.scheds[s]);
    }
    SubsetSize(UpTo(S(c)), st.m.h.inited);
  }

  // -------------------------------------------------------------------------
  // An idle executor that is not finished has an unready task
  // -------------------------------------------------------------------------

  lemma OwnedIsPublished(c: Config, m: Shared, s: nat, pc: SchedPc, j: nat)
    requires SchedInv(c, m, s, pc) && !pc.PushTicket? && j < N(c) && m.h.owner[j] == s
    ensures j in m.h.published
  {
  }

  lemma ScannedIsPublished(c: Config, m: Shared, s: nat, pc: SchedPc, j: nat)
    requires SchedInv(c, m, s, pc) && !pc.PushTicket? && s in m.h.inited && m.err.NoError?
    requires j < N(c) && j % S(c) == s && c.fanin0[j] == 0
    ensures j in m.h.published
  {
    InScanUntilInited(c, m, s, pc);
    assert Covered(pc, j);
  }

  /** In an idle state a task with zero fan-in is published. */
  lemma IdleZeroIsPublished(c: Config, st: State, j: nat)
    requires Inv(c, st) && Idle(c, st) && st.m.err.NoError? && j < N(c) && st.m.fanin[j] == 0
    ensures j in st.m.h.published
  {
    IdleIsOpen(c, st);
    assert st.m.fanin[j] + |st.m.h.dec[j]| == c.fanin0[j];
    var s := if st.m.h.owner[j] == -1 then j % S(c) else st.m.h.owner[j];
    assert SchedInv(c, st.m, s, st.scheds[s]) && Passive(c, st.m, st.scheds[s]);
    if st.m.h.owner[j] == -1 {
      ScannedIsPublished(c, st.m, s, st.scheds[s], j);
    } else {
      OwnedIsPublished(c, st.m, s, st.scheds[s], j);
    }
  }

  predicate SomeUnready(c: Config, m: Shared) {
    exists j :: 0 <= j < N(c) && Load(m.fanin, j) != 0
  }

  /** If an idle executor has processed everything published, some task has a non-zero fan-in. */
  lemma IdleHasUnready(c: Config, st: State)
    requires Inv(c, st) && Live(c, st) && Idle(c, st) && st.m.err.NoError? && c.workerBlocks >= 1
    requires st.m.comp.head == st.m.comp.tail && st.m.completed < N(c)
    ensures SomeUnready(c, st.m)
  {
    IdleIsHandedIn(c, st);
    IdleIsCounted(c, st);
    if !SomeUnready(c, st.m) {
      forall j: nat | j < N(c) ensures j in st.m.h.published {
        assert Load(st.m.fanin, j) == 0;
        IdleZeroIsPublished(c, st, j);
      }
      SubsetSize(UpTo(N(c)), st.m.h.published);
      assert false;
    }
  }
}
