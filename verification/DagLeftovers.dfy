/**
 What the executor leaves behind, on every task table and whether or not an error
 is recorded.  An error stops the search for more work; it does not interrupt work
 that has begun.  When all blocks have returned, every source and every task whose
 fan-in was counted to zero is published, every task that was popped has been
 executed and handed in or has an unknown function, every completion that was taken
 has been processed to the end, and each worker is left with one ticket that it has
 not consumed.  After an error no block waits for another.
 */
module DagLeftovers {
  import opened TicketRing
  import opened DagModel
  import opened DagInvariant
  import opened DagSteps
  import opened DagDiagnosis
  import opened DagProgress
  import opened DagLiveness
  import opened DagFairRuns
  import opened DagReturn

  // -------------------------------------------------------------------------
  // Completions that were taken
  // -------------------------------------------------------------------------

  /** The scheduler is processing completion ticket `t`. */
  predicate Processes(pc: SchedPc, t: nat) {
    match pc
    case ProcStart(u, _) => u == t
    case Proc(u, _, _) => u == t
    case DecRead(u, _, _) => u == t
    case DecCas(u, _, _, _) => u == t
    case ProcDone(u, _) => u == t
    case PushTicket(_, ToProc(u, _, _)) => u == t
    case PushWait(_, _, ToProc(u, _, _)) => u == t
    case PushWrite(_, _, ToProc(u, _, _)) => u == t
    case PushPublish(_, _, ToProc(u, _, _)) => u == t
    case Fail(_, _, ToProc(u, _, _)) => u == t
    case _ => false
  }

  /** Each completion that `s` has taken is retired, being processed, or has dependents out of bounds. */
  ghost predicate TakenKept(c: Config, m: Shared, s: nat, pc: SchedPc)
    requires Shape(c, m)
  {
    forall t :: 0 <= t < m.comp.head && t < m.comp.tail && m.comp.takers[t] == s && m.comp.phase[t].Consumed? ==>
      m.comp.vals[t] in m.h.done || !InBounds(c, m.comp.vals[t]) || Processes(pc, t)
  }

  lemma KeepsProcessing(c: Config, m: Shared, s: nat, pc: SchedPc, t: nat)
    requires Processes(pc, t) && !pc.ProcDone? && !pc.ProcStart?
    ensures Processes(SchedNext(c, m, s, pc).1, t)
  {
  }

  /** How a scheduler step changes the completion ring. */
  lemma CompEffect(c: Config, m: Shared, s: nat, pc: SchedPc)
    ensures var m' := SchedNext(c, m, s, pc).0;
      && m'.comp.vals == m.comp.vals && m'.comp.tail == m.comp.tail && m.h.done <= m'.h.done
      && m'.comp.phase == (if pc.PopClear? then Store(m.comp.phase, pc.t, Consumed) else m.comp.phase)
      && (pc.ProcDone? ==> pc.p in m'.h.done)
  {
  }

  lemma ProcessesWhat(c: Config, m: Shared, s: nat, pc: SchedPc)
    requires SchedInv(c, m, s, pc)
    ensures pc.ProcStart? || pc.ProcDone? ==> pc.t < m.comp.tail && m.comp.vals[pc.t] == pc.p
    ensures pc.PopClear? ==> pc.t < m.comp.head && pc.t < m.comp.tail && m.comp.takers[pc.t] == s
  {
  }

  lemma StartOrRefuse(c: Config, m: Shared, s: nat, t: nat, p: nat)
    ensures Processes(SchedNext(c, m, s, ProcStart(t, p)).1, t) || !InBounds(c, p)
  {
  }

  lemma OwnTaken(c: Config, m: Shared, s: nat, pc: SchedPc)
    requires SchedInv(c, m, s, pc) && TakenKept(c, m, s, pc) && Shape(c, SchedNext(c, m, s, pc).0)
    ensures TakenKept(c, SchedNext(c, m, s, pc).0, s, SchedNext(c, m, s, pc).1)
  {
    var (m', pc') := SchedNext(c, m, s, pc);
    CompEffect(c, m, s, pc);
    ClaimEffect(c, m, s, pc);
    ProcessesWhat(c, m, s, pc);
    forall t | 0 <= t < m'.comp.head && t < m'.comp.tail && m'.comp.takers[t] == s && m'.comp.phase[t].Consumed?
      ensures m'.comp.vals[t] in m'.h.done || !InBounds(c, m'.comp.vals[t]) || Processes(pc', t)
    {
      if !(pc.PopClear? && pc.t == t) {
        ConsumedIsTaken(m.comp, N(c), c.capacity, t);
        if Processes(pc, t) {
          if pc.ProcStart? {
            StartOrRefuse(c, m, s, pc.t, pc.p);
          } else if !pc.ProcDone? {
            KeepsProcessing(c, m, s, pc, t);
          }
        }
      }
    }
  }

  lemma ConsumedIsTaken(r: Ring, n: nat, cap: nat, t: nat)
    requires RingInv(r, n, cap) && t < r.tail && r.phase[t].Consumed?
    ensures t < r.head
  {
  }

  lemma OtherTaken(c: Config, m: Shared, s: nat, pc: SchedPc, u: nat, upc: SchedPc)
    requires SchedInv(c, m, s, pc) && TakenKept(c, m, u, upc) && Shape(c, SchedNext(c, m, s, pc).0) && u != s
    ensures TakenKept(c, SchedNext(c, m, s, pc).0, u, upc)
  {
    var m' := SchedNext(c, m, s, pc).0;
    CompEffect(c, m, s, pc);
    ClaimEffect(c, m, s, pc);
    ProcessesWhat(c, m, s, pc);
    forall t | 0 <= t < m'.comp.head && t < m'.comp.tail && m'.comp.takers[t] == u && m'.comp.phase[t].Consumed?
      ensures m'.comp.vals[t] in m'.h.done || !InBounds(c, m'.comp.vals[t]) || Processes(upc, t)
    {
      if m.comp.phase[t].Consumed? {
        ConsumedIsTaken(m.comp, N(c), c.capacity, t);
      }
    }
  }

  lemma WorkerKeepsTaken(c: Config, m: Shared, w: nat, wpc: WorkerPc, s: nat, pc: SchedPc)
    requires Shape(c, m) && TakenKept(c, m, s, pc) && Shape(c, WorkerNext(c, m, w, wpc).0)
    ensures TakenKept(c, WorkerNext(c, m, w, wpc).0, s, pc)
  {
  }

  // -------------------------------------------------------------------------
  // Dependents of a processed task
  // -------------------------------------------------------------------------

  /** Dependent number `i` of `p` is illegal, or its edge was counted down, or its fan-in was found to be zero. */
  ghost predicate Handled(c: Config, fanin: seq<nat>, dec: seq<set<nat>>, p: nat, i: nat)
    requires |fanin| == |dec| == N(c) && i < |Deps(c, p)|
  {
    var d := Deps(c, p)[i];
    d >= N(c) || d == p || d in Deps(c, p)[..i] || p in dec[d] || fanin[d] == 0
  }

  ghost predicate HandledTo(c: Config, m: Shared, p: nat, i: nat)
    requires Shape(c, m)
  {
    i <= |Deps(c, p)| && forall k {:trigger Handled(c, m.fanin, m.h.dec, p, k)} :: 0 <= k < i ==> Handled(c, m.fanin, m.h.dec, p, k)
  }

  ghost predicate ContHandled(c: Config, m: Shared, k: Cont)
    requires Shape(c, m)
  {
    k.ToProc? ==> HandledTo(c, m, k.p, k.i)
  }

  ghost predicate SchedHandled(c: Config, m: Shared, pc: SchedPc)
    requires Shape(c, m)
  {
    match pc
    case Proc(_, p, i) => HandledTo(c, m, p, i)
    case DecRead(_, p, i) => HandledTo(c, m, p, i)
    case DecCas(_, p, i, _) => HandledTo(c, m, p, i)
    case ProcDone(_, p) => HandledTo(c, m, p, |Deps(c, p)|)
    case PushTicket(_, k) => ContHandled(c, m, k)
    case PushWait(_, _, k) => ContHandled(c, m, k)
    case PushWrite(_, _, k) => ContHandled(c, m, k)
    case PushPublish(_, _, k) => ContHandled(c, m, k)
    case Fail(_, _, k) => ContHandled(c, m, k)
    case _ => true
  }

  /** All dependents of a retired task have been dealt with. */
  ghost predicate DoneHandled(c: Config, m: Shared)
    requires Shape(c, m)
  {
    forall p :: p in m.h.done ==> HandledTo(c, m, p, |Deps(c, p)|)
  }

  /** Counted-down edges stay counted, and a fan-in that is zero stays zero. */
  ghost predicate EdgesGrow(c: Config, m: Shared, m': Shared)
    requires Shape(c, m) && Shape(c, m')
  {
    forall d :: 0 <= d < N(c) ==> m.h.dec[d] <= m'.h.dec[d] && (m.fanin[d] == 0 ==> m'.fanin[d] == 0)
  }

  lemma HandledStable(c: Config, m: Shared, m': Shared, p: nat, i: nat)
    requires Shape(c, m) && Shape(c, m') && EdgesGrow(c, m, m') && HandledTo(c, m, p, i)
    ensures HandledTo(c, m', p, i)
  {
    forall k | 0 <= k < i ensures Handled(c, m'.fanin, m'.h.dec, p, k) {
      assert Handled(c, m.fanin, m.h.dec, p, k);
    }
  }

  lemma SchedHandledStable(c: Config, m: Shared, m': Shared, pc: SchedPc)
    requires Shape(c, m) && Shape(c, m') && EdgesGrow(c, m, m') && SchedHandled(c, m, pc)
    ensures SchedHandled(c, m', pc)
  {
    if pc.Proc? || pc.DecRead? || pc.DecCas? {
      HandledStable(c, m, m', pc.p, pc.i);
    } else if pc.ProcDone? {
      HandledStable(c, m, m', pc.p, |Deps(c, pc.p)|);
    } else if (AtPush(pc) || pc.Fail?) && pc.k.ToProc? {
      HandledStable(c, m, m', pc.k.p, pc.k.i);
    }
  }

  lemma SchedEdgesGrow(c: Config, m: Shared, s: nat, pc: SchedPc)
    requires Shape(c, m) && Shape(c, SchedNext(c, m, s, pc).0)
    ensures EdgesGrow(c, m, SchedNext(c, m, s, pc).0)
  {
    if !pc.DecCas? {
      OnlyCasCounts(c, m, s, pc);
    }
  }

  lemma OnlyCasCounts(c: Config, m: Shared, s: nat, pc: SchedPc)
    requires !pc.DecCas?
    ensures SchedNext(c, m, s, pc).0.fanin == m.fanin && SchedNext(c, m, s, pc).0.h.dec == m.h.dec
  {
  }

  lemma WorkerEdges(c: Config, m: Shared, w: nat, pc: WorkerPc)
    ensures var m' := WorkerNext(c, m, w, pc).0; m'.fanin == m.fanin && m'.h.dec == m.h.dec && m'.h.done == m.h.done
  {
  }

  lemma HandledNext(c: Config, m: Shared, p: nat, i: nat)
    requires Shape(c, m) && HandledTo(c, m, p, i) && i < |Deps(c, p)| && Handled(c, m.fanin, m.h.dec, p, i)
    ensures HandledTo(c, m, p, i + 1)
  {
  }

  lemma ProcHandles(c: Config, m: Shared, s: nat, t: nat, p: nat, i: nat)
    requires Shape(c, m) && HandledTo(c, m, p, i)
    ensures SchedHandled(c, m, SchedNext(c, m, s, Proc(t, p, i)).1)
  {
    if i < |Deps(c, p)| && Handled(c, m.fanin, m.h.dec, p, i) {
      HandledNext(c, m, p, i);
    }
  }

  lemma DecReadHandles(c: Config, m: Shared, s: nat, t: nat, p: nat, i: nat)
    requires Shape(c, m) && HandledTo(c, m, p, i) && i < |Deps(c, p)| && Deps(c, p)[i] < N(c)
    ensures SchedHandled(c, m, SchedNext(c, m, s, DecRead(t, p, i)).1)
  {
    if m.fanin[Deps(c, p)[i]] == 0 {
      assert Handled(c, m.fanin, m.h.dec, p, i);
      HandledNext(c, m, p, i);
    }
  }

  lemma DecCasHandles(c: Config, m: Shared, s: nat, t: nat, p: nat, i: nat, seen: nat)
    requires Shape(c, m) && HandledTo(c, m, p, i) && i < |Deps(c, p)| && Deps(c, p)[i] < N(c)
    requires Shape(c, SchedNext(c, m, s, DecCas(t, p, i, seen)).0)
    ensures var (m', pc') := SchedNext(c, m, s, DecCas(t, p, i, seen)); SchedHandled(c, m', pc')
  {
    var m' := SchedNext(c, m, s, DecCas(t, p, i, seen)).0;
    SchedEdgesGrow(c, m, s, DecCas(t, p, i, seen));
    HandledStable(c, m, m', p, i);
    if !Lost(c, m.fanin, p, i, seen) {
      assert Handled(c, m'.fanin, m'.h.dec, p, i);
      HandledNext(c, m', p, i);
    }
  }

  lemma ResumeHandles(c: Config, m: Shared, k: Cont)
    requires Shape(c, m) && ContHandled(c, m, k)
    ensures SchedHandled(c, m, Resume(k))
  {
  }

  lemma RestHandles(c: Config, m: Shared, s: nat, pc: SchedPc)
    requires !pc.Proc? && !pc.DecRead? && !pc.DecCas? && !AtPush(pc) && !pc.Fail?
    ensures var pc' := SchedNext(c, m, s, pc).1;
      && !(pc'.DecRead? || pc'.DecCas? || pc'.ProcDone? || pc'.PushWait? || pc'.PushWrite? || pc'.PushPublish?)
      && (pc'.Proc? ==> pc'.i == 0) && (pc'.PushTicket? || pc'.Fail? ==> !pc'.k.ToProc?)
  {
  }

  lemma PushHandles(c: Config, m: Shared, s: nat, pc: SchedPc)
    requires AtPush(pc) || pc.Fail?
    ensures var pc' := SchedNext(c, m, s, pc).1;
      || (AtPush(pc') && pc'.k == pc.k) || pc' == Resume(pc.k)
  {
  }

  lemma PendingInRange(c: Config, m: Shared, s: nat, pc: SchedPc)
    requires SchedInv(c, m, s, pc) && (pc.DecRead? || pc.DecCas?)
    ensures pc.i < |Deps(c, pc.p)| && Deps(c, pc.p)[pc.i] < N(c)
  {
  }

  lemma OwnHandled(c: Config, m: Shared, s: nat, pc: SchedPc)
    requires SchedInv(c, m, s, pc) && SchedHandled(c, m, pc) && Shape(c, SchedNext(c, m, s, pc).0)
    ensures SchedHandled(c, SchedNext(c, m, s, pc).0, SchedNext(c, m, s, pc).1)
  {
    var (m', pc') := SchedNext(c, m, s, pc);
    if pc.DecCas? {
      PendingInRange(c, m, s, pc);
      DecCasHandles(c, m, s, pc.t, pc.p, pc.i, pc.seen);
    } else {
      OnlyCasCounts(c, m, s, pc);
      if pc.Proc? {
        ProcHandles(c, m, s, pc.t, pc.p, pc.i);
      } else if pc.DecRead? {
        PendingInRange(c, m, s, pc);
        DecReadHandles(c, m, s, pc.t, pc.p, pc.i);
      } else if AtPush(pc) || pc.Fail? {
        SchedHandledStable(c, m, m', pc);
        PushHandles(c, m, s, pc);
        ResumeHandles(c, m', pc.k);
      } else {
        RestHandles(c, m, s, pc);
      }
    }
  }

  lemma OwnDone(c: Config, m: Shared, s: nat, pc: SchedPc)
    requires Shape(c, m) && SchedHandled(c, m, pc) && DoneHandled(c, m) && Shape(c, SchedNext(c, m, s, pc).0)
    ensures DoneHandled(c, SchedNext(c, m, s, pc).0)
  {
    var m' := SchedNext(c, m, s, pc).0;
    SchedEdgesGrow(c, m, s, pc);
    ClaimEffect(c, m, s, pc);
    forall p | p in m'.h.done ensures HandledTo(c, m', p, |Deps(c, p)|) {
      HandledStable(c, m, m', p, |Deps(c, p)|);
    }
  }

  // -------------------------------------------------------------------------
  // Tasks that were popped
  // -------------------------------------------------------------------------

  /** The worker has popped ticket `t` and has not handed in its task. */
  predicate Executes(pc: WorkerPc, t: nat) {
    match pc
    case WDispatch(u, _) => u == t
    case WFail(u, _) => u == t
    case WLoad(u, _, _) => u == t
    case WStore(u, _, _) => u == t
    case WTicket(u, _) => u == t
    case _ => false
  }

  predicate Unknown(c: Config, v: nat) {
    v < N(c) && c.tasks[v].funcId !in c.registered
  }

  /** Each task that `w` has popped is handed in, being executed, or has an unknown function. */
  ghost predicate PoppedKept(c: Config, m: Shared, w: nat, pc: WorkerPc)
    requires Shape(c, m)
  {
    && (forall t :: 0 <= t < m.ready.head && t < m.ready.tail && m.ready.takers[t] == w && m.ready.phase[t].Consumed? ==>
          m.ready.vals[t] in m.h.completes || Unknown(c, m.ready.vals[t]) || Executes(pc, t))
    && (pc.WFail? ==> Unknown(c, pc.v))
  }

  /** Each completion ticket that `w` has drawn is published or still held. */
  ghost predicate HandedKept(c: Config, m: Shared, w: nat, pc: WorkerPc)
    requires Shape(c, m)
  {
    forall t :: 0 <= t < m.comp.tail && m.comp.pushers[t] == w && m.comp.phase[t].Reserved? ==> HoldsCompletion(pc, t)
  }

  /** Worker `w` has drawn ticket `t` and has not consumed it. */
  ghost predicate Unused(m: Shared, w: nat, t: nat) {
    t < m.ready.head && t < |m.ready.takers| && m.ready.takers[t] == w &&
    (t < m.ready.tail && t < |m.ready.phase| ==> !m.ready.phase[t].Consumed?)
  }

  /** A worker returns only on a ticket that it has not consumed. */
  ghost predicate LastTicket(m: Shared, w: nat, pc: WorkerPc) {
    pc.WDone? ==> exists t: nat :: Unused(m, w, t)
  }

  /** How a worker step changes the ready ring. */
  lemma ReadyEffect(c: Config, m: Shared, w: nat, pc: WorkerPc)
    ensures var m' := WorkerNext(c, m, w, pc).0;
      && m'.ready.vals == m.ready.vals && m'.ready.tail == m.ready.tail
      && m'.ready.phase == (if pc.WClear? then Store(m.ready.phase, pc.t, Consumed) else m.ready.phase)
      && m'.ready.takers == m.ready.takers + (if pc.WPop? then [w] else [])
      && m'.h.completes == m.h.completes + (if pc.WTicket? then {pc.v} else {})
  {
  }

  lemma KeepsExecuting(c: Config, m: Shared, w: nat, pc: WorkerPc, t: nat)
    requires Executes(pc, t) && !pc.WFail? && !pc.WTicket?
    ensures Executes(WorkerNext(c, m, w, pc).1, t)
  {
  }

  lemma FailsUnknown(c: Config, m: Shared, w: nat, pc: WorkerPc)
    requires pc.WDispatch? ==> pc.v < N(c)
    ensures WorkerNext(c, m, w, pc).1.WFail? ==> Unknown(c, WorkerNext(c, m, w, pc).1.v)
  {
  }

  lemma CarriedIsTaken(c: Config, m: Shared, w: nat, pc: WorkerPc)
    requires WorkerInv(c, m, w, pc)
    ensures pc.WFail? || pc.WTicket? || pc.WDispatch? ==> pc.t < m.ready.tail && m.ready.vals[pc.t] == pc.v
    ensures pc.WDispatch? ==> pc.v < N(c)
    ensures pc.WClear? ==> pc.t < m.ready.head && pc.t < m.ready.tail && m.ready.takers[pc.t] == w
  {
  }

  lemma PoppedTicket(c: Config, m: Shared, w: nat, pc: WorkerPc, t: nat)
    requires WorkerInv(c, m, w, pc) && PoppedKept(c, m, w, pc) && t < m.ready.tail && t < m.ready.head
    requires m.ready.takers[t] == w && m.ready.phase[t].Consumed?
    ensures var (m', pc') := WorkerNext(c, m, w, pc);
      m.ready.vals[t] in m'.h.completes || Unknown(c, m.ready.vals[t]) || Executes(pc', t)
  {
    ReadyEffect(c, m, w, pc);
    if Executes(pc, t) {
      if pc.WFail? || pc.WTicket? {
        CarriedIsTaken(c, m, w, pc);
      } else {
        KeepsExecuting(c, m, w, pc, t);
      }
    }
  }

  lemma OwnPopped(c: Config, m: Shared, w: nat, pc: WorkerPc)
    requires WorkerInv(c, m, w, pc) && PoppedKept(c, m, w, pc) && Shape(c, WorkerNext(c, m, w, pc).0)
    ensures PoppedKept(c, WorkerNext(c, m, w, pc).0, w, WorkerNext(c, m, w, pc).1)
  {
    var (m', pc') := WorkerNext(c, m, w, pc);
    ReadyEffect(c, m, w, pc);
    CarriedIsTaken(c, m, w, pc);
    FailsUnknown(c, m, w, pc);
    forall t | 0 <= t < m'.ready.head && t < m'.ready.tail && m'.ready.takers[t] == w && m'.ready.phase[t].Consumed?
      ensures m'.ready.vals[t] in m'.h.completes || Unknown(c, m'.ready.vals[t]) || Executes(pc', t)
    {
      if !(pc.WClear? && pc.t == t) {
        ConsumedIsTaken(m.ready, N(c), c.capacity, t);
        PoppedTicket(c, m, w, pc, t);
      }
    }
  }

  lemma OtherPopped(c: Config, m: Shared, w: nat, pc: WorkerPc, u: nat, upc: WorkerPc)
    requires WorkerInv(c, m, w, pc) && PoppedKept(c, m, u, upc) && Shape(c, WorkerNext(c, m, w, pc).0)
    requires u != w
    ensures PoppedKept(c, WorkerNext(c, m, w, pc).0, u, upc)
  {
    var m' := WorkerNext(c, m, w, pc).0;
    ReadyEffect(c, m, w, pc);
    CarriedIsTaken(c, m, w, pc);
    forall t | 0 <= t < m'.ready.head && t < m'.ready.tail && m'.ready.takers[t] == u && m'.ready.phase[t].Consumed?
      ensures m'.ready.vals[t] in m'.h.completes || Unknown(c, m'.ready.vals[t]) || Executes(upc, t)
    {
      if m.ready.phase[t].Consumed? {
        ConsumedIsTaken(m.ready, N(c), c.capacity, t);
      }
    }
  }

  lemma SchedReadyEffect(c: Config, m: Shared, s: nat, pc: SchedPc)
    requires Shape(c, m) && Shape(c, SchedNext(c, m, s, pc).0) && Common(c, m, SchedNext(c, m, s, pc).0)
    ensures var m' := SchedNext(c, m, s, pc).0;
      && m'.ready.takers == m.ready.takers && m'.h.completes == m.h.completes && m'.comp.pushers == m.comp.pushers
      && m'.ready.head == m.ready.head
      && (forall t :: 0 <= t < m'.ready.tail && m'.ready.phase[t].Consumed? ==> t < m.ready.tail && m.ready.phase[t].Consumed?)
      && (forall t :: 0 <= t < m.comp.tail && m'.comp.phase[t].Reserved? ==> m.comp.phase[t].Reserved?)
  {
  }

  lemma SchedKeepsWorker(c: Config, m: Shared, s: nat, pc: SchedPc, w: nat, wpc: WorkerPc)
    requires Shape(c, m) && Shape(c, SchedNext(c, m, s, pc).0) && Common(c, m, SchedNext(c, m, s, pc).0)
    requires PoppedKept(c, m, w, wpc) && HandedKept(c, m, w, wpc) && LastTicket(m, w, wpc)
    ensures var m' := SchedNext(c, m, s, pc).0; PoppedKept(c, m', w, wpc) && HandedKept(c, m', w, wpc)
    ensures LastTicket(SchedNext(c, m, s, pc).0, w, wpc)
  {
    var m' := SchedNext(c, m, s, pc).0;
    SchedReadyEffect(c, m, s, pc);
    if wpc.WDone? {
      var t: nat :| Unused(m, w, t);
      assert Unused(m', w, t);
    }
  }

  lemma OwnHanded(c: Config, m: Shared, w: nat, pc: WorkerPc)
    requires WorkerInv(c, m, w, pc) && HandedKept(c, m, w, pc) && Shape(c, WorkerNext(c, m, w, pc).0)
    ensures HandedKept(c, WorkerNext(c, m, w, pc).0, w, WorkerNext(c, m, w, pc).1)
  {
    if pc.WPublish? {
      SlotIsTicket(N(c), c.capacity, pc.ct);
    } else if pc.WPushWait? {
      HoldingSlotIsFree(m.comp, N(c), c.capacity, w, pc.ct, pc.v);
    }
  }

  lemma OtherHanded(c: Config, m: Shared, w: nat, pc: WorkerPc, u: nat, upc: WorkerPc)
    requires Shape(c, m) && HandedKept(c, m, u, upc) && Shape(c, WorkerNext(c, m, w, pc).0) && u != w
    ensures HandedKept(c, WorkerNext(c, m, w, pc).0, u, upc)
  {
  }

  lemma OwnLast(c: Config, m: Shared, w: nat, pc: WorkerPc)
    requires WorkerInv(c, m, w, pc) && LastTicket(m, w, pc)
    ensures LastTicket(WorkerNext(c, m, w, pc).0, w, WorkerNext(c, m, w, pc).1)
  {
    var (m', pc') := WorkerNext(c, m, w, pc);
    if pc.WPop? {
      if pc'.WDone? {
        assert Unused(m', w, m.ready.head);
      }
    } else if pc.WSpinErr? {
      assert Unused(m, w, pc.t);
    } else if pc.WDone? {
      assert m' == m;
    }
  }

  lemma OtherLast(c: Config, m: Shared, w: nat, pc: WorkerPc, u: nat, upc: WorkerPc)
    requires WorkerInv(c, m, w, pc) && LastTicket(m, u, upc) && u != w
    ensures LastTicket(WorkerNext(c, m, w, pc).0, u, upc)
  {
    if upc.WDone? {
      var t: nat :| Unused(m, u, t);
      UnusedStays(c, m, w, pc, u, t);
    }
  }

  lemma UnusedStays(c: Config, m: Shared, w: nat, pc: WorkerPc, u: nat, t: nat)
    requires WorkerInv(c, m, w, pc) && Unused(m, u, t) && u != w
    ensures Unused(WorkerNext(c, m, w, pc).0, u, t)
  {
    ReadyEffect(c, m, w, pc);
    CarriedIsTaken(c, m, w, pc);
  }

  // -------------------------------------------------------------------------
  // Runs
  // -------------------------------------------------------------------------

  ghost predicate Kept(c: Config, st: State)
    requires Inv(c, st)
  {
    && (forall s :: 0 <= s < |st.scheds| ==> TakenKept(c, st.m, s, st.scheds[s]) && SchedHandled(c, st.m, st.scheds[s]))
    && (forall w :: 0 <= w < |st.workers| ==>
          PoppedKept(c, st.m, w, st.workers[w]) && HandedKept(c, st.m, w, st.workers[w]) && LastTicket(st.m, w, st.workers[w]))
    && DoneHandled(c, st.m)
  }

  lemma KeptScheds(c: Config, st: State, s: nat, u: nat)
    requires Inv(c, st) && Kept(c, st) && s < |st.scheds| && u < |st.scheds| && Shape(c, Step(c, st, Sched(s)).m)
    ensures var st' := Step(c, st, Sched(s));
      TakenKept(c, st'.m, u, st'.scheds[u]) && SchedHandled(c, st'.m, st'.scheds[u])
  {
    InvAtSched(c, st, s);
    if u == s {
      OwnTaken(c, st.m, s, st.scheds[s]);
      OwnHandled(c, st.m, s, st.scheds[s]);
    } else {
      OtherTaken(c, st.m, s, st.scheds[s], u, st.scheds[u]);
      SchedEdgesGrow(c, st.m, s, st.scheds[s]);
      SchedHandledStable(c, st.m, Step(c, st, Sched(s)).m, st.scheds[u]);
    }
  }

  lemma KeptSchedStep(c: Config, st: State, s: nat)
    requires Inv(c, st) && Kept(c, st) && s < |st.scheds|
    ensures Inv(c, Step(c, st, Sched(s))) && Kept(c, Step(c, st, Sched(s)))
  {
    StepOk(c, st, Sched(s));
    var st' := Step(c, st, Sched(s));
    InvAtSched(c, st, s);
    SchedStepCommon(c, st.m, s, st.scheds[s]);
    forall u | 0 <= u < |st.scheds|
      ensures TakenKept(c, st'.m, u, st'.scheds[u]) && SchedHandled(c, st'.m, st'.scheds[u])
    {
      KeptScheds(c, st, s, u);
    }
    forall w | 0 <= w < |st.workers|
      ensures PoppedKept(c, st'.m, w, st'.workers[w]) && HandedKept(c, st'.m, w, st'.workers[w])
      ensures LastTicket(st'.m, w, st'.workers[w])
    {
      SchedKeepsWorker(c, st.m, s, st.scheds[s], w, st.workers[w]);
    }
    OwnDone(c, st.m, s, st.scheds[s]);
  }

  lemma InvAtWorker(c: Config, st: State, w: nat)
    requires Inv(c, st) && w < |st.workers|
    ensures Global(c, st.m) && WorkerInv(c, st.m, w, st.workers[w])
  {
  }

  lemma KeptWorkers(c: Config, st: State, w: nat, u: nat)
    requires Inv(c, st) && Kept(c, st) && w < |st.workers| && u < |st.workers| && Shape(c, Step(c, st, Worker(w)).m)
    ensures var st' := Step(c, st, Worker(w));
      PoppedKept(c, st'.m, u, st'.workers[u]) && HandedKept(c, st'.m, u, st'.workers[u]) && LastTicket(st'.m, u, st'.workers[u])
  {
    InvAtWorker(c, st, w);
    if u == w {
      OwnPopped(c, st.m, w, st.workers[w]);
      OwnHanded(c, st.m, w, st.workers[w]);
      OwnLast(c, st.m, w, st.workers[w]);
    } else {
      OtherPopped(c, st.m, w, st.workers[w], u, st.workers[u]);
      OtherHanded(c, st.m, w, st.workers[w], u, st.workers[u]);
      OtherLast(c, st.m, w, st.workers[w], u, st.workers[u]);
    }
  }

  lemma WorkerKeepsHandled(c: Config, m: Shared, w: nat, wpc: WorkerPc, pc: SchedPc)
    requires Shape(c, m) && Shape(c, WorkerNext(c, m, w, wpc).0) && SchedHandled(c, m, pc) && DoneHandled(c, m)
    ensures SchedHandled(c, WorkerNext(c, m, w, wpc).0, pc) && DoneHandled(c, WorkerNext(c, m, w, wpc).0)
  {
    var m' := WorkerNext(c, m, w, wpc).0;
    WorkerEdges(c, m, w, wpc);
    SchedHandledStable(c, m, m', pc);
    forall p | p in m'.h.done ensures HandledTo(c, m', p, |Deps(c, p)|) {
      HandledStable(c, m, m', p, |Deps(c, p)|);
    }
  }

  lemma KeptWorkerStep(c: Config, st: State, w: nat)
    requires Inv(c, st) && Kept(c, st) && w < |st.workers|
    ensures Inv(c, Step(c, st, Worker(w))) && Kept(c, Step(c, st, Worker(w)))
  {
    StepOk(c, st, Worker(w));
    var st' := Step(c, st, Worker(w));
    WorkerKeepsHandled(c, st.m, w, st.workers[w], SchedDone);
    forall s | 0 <= s < |st.scheds|
      ensures TakenKept(c, st'.m, s, st'.scheds[s]) && SchedHandled(c, st'.m, st'.scheds[s])
    {
      WorkerKeepsTaken(c, st.m, w, st.workers[w], s, st.scheds[s]);
      WorkerKeepsHandled(c, st.m, w, st.workers[w], st.scheds[s]);
    }
    forall u | 0 <= u < |st.workers|
      ensures PoppedKept(c, st'.m, u, st'.workers[u]) && HandedKept(c, st'.m, u, st'.workers[u])
      ensures LastTicket(st'.m, u, st'.workers[u])
    {
      KeptWorkers(c, st, w, u);
    }
  }

  lemma KeptStep(c: Config, st: State, a: Actor)
    requires Inv(c, st) && Kept(c, st)
    ensures Inv(c, Step(c, st, a)) && Kept(c, Step(c, st, a))
  {
    match a {
      case Sched(s) => if s < |st.scheds| { KeptSchedStep(c, st, s); }
      case Worker(w) => if w < |st.workers| { KeptWorkerStep(c, st, w); }
    }
  }

  lemma KeptInit(c: Config)
    requires Launchable(c)
    ensures Inv(c, Init(c)) && Kept(c, Init(c))
  {
    InitOk(c);
  }

  /** Work that has begun is finished or in the hands of the block that began it, in every state of every run. */
  lemma {:induction false} NothingDropped(c: Config, schedule: seq<Actor>)
    requires Launchable(c)
    ensures Inv(c, Run(c, Init(c), schedule)) && Kept(c, Run(c, Init(c), schedule))
    decreases |schedule|
  {
    if schedule == [] {
      KeptInit(c);
    } else {
      var before := schedule[..|schedule| - 1];
      NothingDropped(c, before);
      KeptStep(c, Run(c, Init(c), before), schedule[|schedule| - 1]);
    }
  }

  // -------------------------------------------------------------------------
  // What is left when all blocks have returned
  // -------------------------------------------------------------------------

  ghost predicate HasUnused(m: Shared, w: nat) {
    exists t: nat :: Unused(m, w, t)
  }

  /** Every source, and every task whose fan-in was counted down to zero, is published. */
  ghost predicate ReadyIsPublished(c: Config, m: Shared)
    requires Shape(c, m)
  {
    forall j :: 0 <= j < N(c) && m.fanin[j] == 0 && (m.h.dec[j] != {} || c.tasks[j].initialFanin == 0) ==>
      j in m.h.published
  }

  /** Every ready ticket is published, and every task that was popped is handed in unless its function is unknown. */
  ghost predicate PoppedIsHandedIn(c: Config, m: Shared)
    requires Shape(c, m)
  {
    forall t :: 0 <= t < m.ready.tail ==>
      && !m.ready.phase[t].Reserved?
      && (m.ready.phase[t].Consumed? ==> m.ready.vals[t] in m.h.completes || Unknown(c, m.ready.vals[t]))
  }

  /** Every completion ticket is published, and what was taken is retired unless its dependents are out of bounds. */
  ghost predicate TakenIsRetired(c: Config, m: Shared)
    requires Shape(c, m)
  {
    forall t :: 0 <= t < m.comp.tail ==>
      && !m.comp.phase[t].Reserved?
      && (m.comp.phase[t].Consumed? ==> m.comp.vals[t] in m.h.done || !InBounds(c, m.comp.vals[t]))
  }

  ghost predicate Finished(c: Config, m: Shared) {
    && Shape(c, m)
    && ReadyIsPublished(c, m) && PoppedIsHandedIn(c, m) && TakenIsRetired(c, m) && DoneHandled(c, m)
    && forall w :: 0 <= w < c.workerBlocks ==> HasUnused(m, w)
  }

  lemma ReturnedIs(c: Config, st: State, a: Actor)
    requires Inv(c, st) && AllReturned(c, st) && Launched(c, a)
    ensures a.Sched? ==> a.s < |st.scheds| && st.scheds[a.s].SchedDone?
    ensures a.Worker? ==> a.w < |st.workers| && st.workers[a.w].WDone?
  {
    assert !Unreturned(st, a);
  }

  lemma PublishedAtEnd(c: Config, st: State, j: nat)
    requires Inv(c, st) && AllReturned(c, st) && j < N(c) && st.m.fanin[j] == 0
    requires st.m.h.dec[j] != {} || c.tasks[j].initialFanin == 0
    ensures j in st.m.h.published
  {
    if st.m.h.dec[j] != {} {
      var s: nat := st.m.h.owner[j];
      ReturnedIs(c, st, Sched(s));
      InvAtSched(c, st, s);
    } else {
      var s := j % S(c);
      ReturnedIs(c, st, Sched(s));
      InvAtSched(c, st, s);
      assert st.m.fanin[j] + |st.m.h.dec[j]| == c.fanin0[j];
    }
  }

  lemma ReadyTicketAtEnd(c: Config, st: State, t: nat)
    requires Sound(c, st) && Kept(c, st) && AllReturned(c, st) && t < st.m.ready.tail
    ensures !st.m.ready.phase[t].Reserved?
    ensures st.m.ready.phase[t].Consumed? ==> st.m.ready.vals[t] in st.m.h.completes || Unknown(c, st.m.ready.vals[t])
  {
    var s := st.m.ready.pushers[t];
    ReturnedIs(c, st, Sched(s));
    assert PushLive(c, st.m, s, st.scheds[s]);
    if st.m.ready.phase[t].Consumed? {
      ConsumedIsTaken(st.m.ready, N(c), c.capacity, t);
      var w := st.m.ready.takers[t];
      ReturnedIs(c, st, Worker(w));
      assert PoppedKept(c, st.m, w, st.workers[w]);
    }
  }

  lemma CompletionTicketAtEnd(c: Config, st: State, t: nat)
    requires Sound(c, st) && Kept(c, st) && AllReturned(c, st) && t < st.m.comp.tail
    ensures !st.m.comp.phase[t].Reserved?
    ensures st.m.comp.phase[t].Consumed? ==> st.m.comp.vals[t] in st.m.h.done || !InBounds(c, st.m.comp.vals[t])
  {
    var w := st.m.comp.pushers[t];
    ReturnedIs(c, st, Worker(w));
    assert HandedKept(c, st.m, w, st.workers[w]);
    if st.m.comp.phase[t].Consumed? {
      ConsumedIsTaken(st.m.comp, N(c), c.capacity, t);
      var s := st.m.comp.takers[t];
      ReturnedIs(c, st, Sched(s));
      assert TakenKept(c, st.m, s, st.scheds[s]);
    }
  }

  lemma FinishedAtEnd(c: Config, st: State)
    requires Sound(c, st) && Kept(c, st) && AllReturned(c, st)
    ensures Finished(c, st.m)
  {
    forall j | 0 <= j < N(c) && st.m.fanin[j] == 0 && (st.m.h.dec[j] != {} || c.tasks[j].initialFanin == 0)
      ensures j in st.m.h.published
    {
      PublishedAtEnd(c, st, j);
    }
    forall t | 0 <= t < st.m.ready.tail
      ensures !st.m.ready.phase[t].Reserved?
      ensures st.m.ready.phase[t].Consumed? ==> st.m.ready.vals[t] in st.m.h.completes || Unknown(c, st.m.ready.vals[t])
    {
      ReadyTicketAtEnd(c, st, t);
    }
    forall t | 0 <= t < st.m.comp.tail
      ensures !st.m.comp.phase[t].Reserved?
      ensures st.m.comp.phase[t].Consumed? ==> st.m.comp.vals[t] in st.m.h.done || !InBounds(c, st.m.comp.vals[t])
    {
      CompletionTicketAtEnd(c, st, t);
    }
    forall w | 0 <= w < c.workerBlocks ensures HasUnused(st.m, w) {
      ReturnedIs(c, st, Worker(w));
      assert LastTicket(st.m, w, st.workers[w]);
    }
  }

  /** Every fair run, on every task table, returns with all work finished that was begun. */
  lemma FairRunFinishes(c: Config, turn: nat -> Actor, run: nat -> State) returns (end: nat)
    requires Manned(c) && IsRun(c, turn, run) && Fair(c, turn)
    ensures AllReturned(c, run(end)) && Finished(c, run(end).m)
  {
    end := FairRunReturns(c, turn, run);
    SoundAt(c, turn, run, end);
    RunOfPrefix(c, turn, run, end);
    NothingDropped(c, Prefix(turn, end));
    FinishedAtEnd(c, run(end));
  }

  // -------------------------------------------------------------------------
  // Nobody waits after an error
  // -------------------------------------------------------------------------

  /** How many steps of `schedule` are made by blocks that have not returned yet. */
  function Moves(c: Config, st: State, schedule: seq<Actor>): nat {
    if schedule == [] then 0
    else
      var before := schedule[..|schedule| - 1];
      Moves(c, st, before) + if Unreturned(Run(c, st, before), schedule[|schedule| - 1]) then 1 else 0
  }

  lemma ErrorStays(c: Config, st: State, a: Actor)
    requires st.m.err.Error?
    ensures Step(c, st, a).m.err == st.m.err
  {
  }

  lemma StepAfterError(c: Config, st: State, a: Actor)
    requires Inv(c, st) && st.m.err.Error?
    ensures var st' := Step(c, st, a);
      && Inv(c, st') && st'.m.err == st.m.err
      && Left(c, st') + (if Unreturned(st, a) then 1 else 0) <= Left(c, st)
  {
    StepOk(c, st, a);
    ErrorStays(c, st, a);
    ReturnStep(c, st, a);
  }

  /**
   After an error the blocks are wait-free: whatever the schedule, even one that
   starves a block, they make at most `Left` more steps in total.
   */
  lemma {:induction false} WaitFreeAfterError(c: Config, st: State, schedule: seq<Actor>)
    requires Inv(c, st) && st.m.err.Error?
    ensures var st' := Run(c, st, schedule);
      Inv(c, st') && st'.m.err == st.m.err && Moves(c, st, schedule) + Left(c, st') <= Left(c, st)
    decreases |schedule|
  {
    if schedule != [] {
      var before := schedule[..|schedule| - 1];
      var a := schedule[|schedule| - 1];
      WaitFreeAfterError(c, st, before);
      StepAfterError(c, Run(c, st, before), a);
    }
  }
}
