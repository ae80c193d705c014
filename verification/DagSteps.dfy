/**
 The invariant of the executor holds in every state of every run.
 */
module DagSteps {
  import opened TicketRing
  import opened DagModel
  import opened DagInvariant
  import opened DagPreserve
  import opened Arithmetic

  // -------------------------------------------------------------------------
  // Worker steps
  // -------------------------------------------------------------------------

  lemma WorkerReadOk(c: Config, m: Shared, w: nat, pc: WorkerPc)
    requires Global(c, m) && WorkerInv(c, m, w, pc)
    requires pc.WSpin? || pc.WSpinErr? || pc.WRead? || pc.WDispatch? || pc.WLoad? || pc.WPushWait? || pc.WDone?
    ensures var (m', pc') := WorkerNext(c, m, w, pc); m' == m && WorkerInv(c, m, w, pc')
  {
    match pc {
      case WSpin(t) => FlagMeansPublished(m.ready, N(c), c.capacity, t);
      case WRead(t) => ReadsPushedValue(m.ready, N(c), c.capacity, w, t);
      case WPushWait(v, ct) => HoldingSlotIsFree(m.comp, N(c), c.capacity, w, ct, v);
      case _ =>
    }
  }

  lemma WPopOk(c: Config, m: Shared, w: nat)
    requires Global(c, m)
    ensures var (m', pc') := WorkerNext(c, m, w, WPop); WorkerGuarantee(c, m, m', w) && WorkerInv(c, m', w, pc')
  {
    DrawPopOk(m.ready, N(c), c.capacity, w);
  }

  lemma ConsumeGlobal(c: Config, m: Shared, w: nat, t: nat)
    requires Global(c, m) && Reading(m.ready, w, t)
    ensures Global(c, Consume(c, m, t, m.ready.vals[t]))
  {
    ClearOk(m.ready, N(c), c.capacity, w, t);
  }

  lemma ConsumeRely(c: Config, m: Shared, w: nat, t: nat)
    requires Global(c, m) && Reading(m.ready, w, t) && Global(c, Consume(c, m, t, m.ready.vals[t]))
    ensures WorkerGuarantee(c, m, Consume(c, m, t, m.ready.vals[t]), w)
  {
    ClearOk(m.ready, N(c), c.capacity, w, t);
  }

  lemma WClearOk(c: Config, m: Shared, w: nat, t: nat, v: nat)
    requires Global(c, m) && WorkerInv(c, m, w, WClear(t, v))
    ensures var (m', pc') := WorkerNext(c, m, w, WClear(t, v));
      WorkerGuarantee(c, m, m', w) && WorkerInv(c, m', w, pc')
  {
    ConsumeGlobal(c, m, w, t);
    ConsumeRely(c, m, w, t);
    ClearOk(m.ready, N(c), c.capacity, w, t);
  }

  lemma WFailOk(c: Config, m: Shared, w: nat, t: nat, v: nat)
    requires Global(c, m) && WorkerInv(c, m, w, WFail(t, v))
    ensures var (m', pc') := WorkerNext(c, m, w, WFail(t, v));
      WorkerGuarantee(c, m, m', w) && WorkerInv(c, m', w, pc')
  {
    RecordErrorRely(c, m, 1, v, w);
  }

  lemma StoreGlobal(c: Config, m: Shared, v: nat, args: seq<Buffer>)
    requires Global(c, m) && v in m.h.popped && v < N(c) && c.tasks[v].funcId in c.registered
    ensures Global(c, StoreOutput(c, m, v, args))
  {
  }

  lemma StoreRely(c: Config, m: Shared, w: nat, t: nat, v: nat, args: seq<Buffer>)
    requires Global(c, m) && Carries(c, m, w, t, v) && Global(c, StoreOutput(c, m, v, args))
    ensures WorkerGuarantee(c, m, StoreOutput(c, m, v, args), w)
  {
  }

  lemma WStoreOk(c: Config, m: Shared, w: nat, t: nat, v: nat, args: seq<Buffer>)
    requires Global(c, m) && WorkerInv(c, m, w, WStore(t, v, args))
    ensures var (m', pc') := WorkerNext(c, m, w, WStore(t, v, args));
      WorkerGuarantee(c, m, m', w) && WorkerInv(c, m', w, pc')
  {
    StoreGlobal(c, m, v, args);
    StoreRely(c, m, w, t, v, args);
  }

  lemma CompletionTicketLinks(c: Config, m: Shared, w: nat, v: nat)
    requires Shape(c, m) && LifeCycle(c, m) && RingLinks(c, m) && v in m.h.ran && v !in m.h.completes
    ensures m.comp.tail < N(c)
    ensures var m' := TakeCompletionTicket(m, w, v); Shape(c, m') && LifeCycle(c, m') && RingLinks(c, m')
  {
    BoundedSet(m.h.completes + {v}, N(c));
    DrawPushOk(m.comp, N(c), c.capacity, w, v);
  }

  lemma CompletionTicketGlobal(c: Config, m: Shared, w: nat, v: nat)
    requires Global(c, m) && v in m.h.ran && v !in m.h.completes
    ensures m.comp.tail < N(c) && Global(c, TakeCompletionTicket(m, w, v))
  {
    CompletionTicketLinks(c, m, w, v);
  }

  lemma CompletionTicketKeeps(c: Config, m: Shared, w: nat, t: nat, v: nat, a: nat)
    requires Shape(c, m) && Distinct(m.ready.vals) && Took(m.ready, w, t, v) && m.comp.tail < N(c)
    requires Shape(c, TakeCompletionTicket(m, w, v))
    ensures RelySched(c, m, TakeCompletionTicket(m, w, v), a)
    ensures a != w ==> RelyWorker(c, m, TakeCompletionTicket(m, w, v), a)
  {
    DrawPushOk(m.comp, N(c), c.capacity, w, v);
  }

  lemma CompletionTicketRely(c: Config, m: Shared, w: nat, t: nat, v: nat)
    requires Global(c, m) && Took(m.ready, w, t, v) && v in m.h.ran && v !in m.h.completes
    requires m.comp.tail < N(c) && Global(c, TakeCompletionTicket(m, w, v))
    ensures WorkerGuarantee(c, m, TakeCompletionTicket(m, w, v), w)
  {
    forall a: nat
      ensures RelySched(c, m, TakeCompletionTicket(m, w, v), a)
      ensures a != w ==> RelyWorker(c, m, TakeCompletionTicket(m, w, v), a)
    {
      CompletionTicketKeeps(c, m, w, t, v, a);
    }
  }

  lemma WTicketOk(c: Config, m: Shared, w: nat, t: nat, v: nat)
    requires Global(c, m) && WorkerInv(c, m, w, WTicket(t, v))
    ensures var (m', pc') := WorkerNext(c, m, w, WTicket(t, v));
      WorkerGuarantee(c, m, m', w) && WorkerInv(c, m', w, pc')
  {
    CompletionTicketGlobal(c, m, w, v);
    CompletionTicketRely(c, m, w, t, v);
    DrawPushOk(m.comp, N(c), c.capacity, w, v);
  }

  lemma WPushWriteOk(c: Config, m: Shared, w: nat, v: nat, ct: nat)
    requires Global(c, m) && WorkerInv(c, m, w, WPushWrite(v, ct))
    ensures var (m', pc') := WorkerNext(c, m, w, WPushWrite(v, ct));
      WorkerGuarantee(c, m, m', w) && WorkerInv(c, m', w, pc')
  {
    WriteOk(m.comp, N(c), c.capacity, w, ct, v);
  }

  lemma WPublishOk(c: Config, m: Shared, w: nat, v: nat, ct: nat)
    requires Global(c, m) && WorkerInv(c, m, w, WPublish(v, ct))
    ensures var (m', pc') := WorkerNext(c, m, w, WPublish(v, ct));
      WorkerGuarantee(c, m, m', w) && WorkerInv(c, m', w, pc')
  {
    PublishOk(m.comp, N(c), c.capacity, w, ct, v);
  }

  lemma WorkerStepOk(c: Config, m: Shared, w: nat, pc: WorkerPc)
    requires Global(c, m) && WorkerInv(c, m, w, pc)
    ensures var (m', pc') := WorkerNext(c, m, w, pc); WorkerGuarantee(c, m, m', w) && WorkerInv(c, m', w, pc')
  {
    match pc {
      case WPop => WPopOk(c, m, w);
      case WClear(t, v) => WClearOk(c, m, w, t, v);
      case WFail(t, v) => WFailOk(c, m, w, t, v);
      case WStore(t, v, args) => WStoreOk(c, m, w, t, v, args);
      case WTicket(t, v) => WTicketOk(c, m, w, t, v);
      case WPushWrite(v, ct) => WPushWriteOk(c, m, w, v, ct);
      case WPublish(v, ct) => WPublishOk(c, m, w, v, ct);
      case _ => WorkerReadOk(c, m, w, pc); RelyReflexive(c, m, w);
    }
  }

  // -------------------------------------------------------------------------
  // Scheduler steps
  // -------------------------------------------------------------------------

  lemma ProcStartReadOk(c: Config, m: Shared, s: nat, pc: SchedPc)
    requires SchedInv(c, m, s, pc) && pc.ProcStart?
    ensures var (m', pc') := SchedNext(c, m, s, pc); m' == m && SchedInv(c, m, s, pc')
  {
    ProcStartOk(c, m, s, pc.t, pc.p);
  }

  lemma ProcReadOk(c: Config, m: Shared, s: nat, pc: SchedPc)
    requires SchedInv(c, m, s, pc) && pc.Proc?
    ensures var (m', pc') := SchedNext(c, m, s, pc); m' == m && SchedInv(c, m, s, pc')
  {
    ProcOk(c, m, s, pc.t, pc.p, pc.i);
  }

  lemma DecReadReadOk(c: Config, m: Shared, s: nat, pc: SchedPc)
    requires SchedInv(c, m, s, pc) && pc.DecRead?
    ensures var (m', pc') := SchedNext(c, m, s, pc); m' == m && SchedInv(c, m, s, pc')
  {
    DecReadOk(c, m, s, pc.t, pc.p, pc.i);
  }

  lemma SchedReadStepOk(c: Config, m: Shared, s: nat, pc: SchedPc)
    requires Global(c, m) && SchedInv(c, m, s, pc)
    requires !(pc.Scan? || pc.PushTicket? || pc.PushWrite? || pc.PushPublish? || pc.Fail? || pc.InitAdd?)
    requires !(pc.PopCas? || pc.PopClear? || pc.DecCas? || pc.ProcDone?)
    ensures var (m', pc') := SchedNext(c, m, s, pc); m' == m && SchedInv(c, m, s, pc')
  {
    if pc.PopSpin? || pc.PopRead? {
      PopFlagOk(c, m, s, pc);
    } else if pc.ProcStart? {
      ProcStartReadOk(c, m, s, pc);
    } else if pc.Proc? {
      ProcReadOk(c, m, s, pc);
    } else if pc.DecRead? {
      DecReadReadOk(c, m, s, pc);
    } else if pc.PopHead? || pc.PopTail? || pc.PopSpinErr? {
      PopReadOk(c, m, s, pc);
    } else if pc.StallTail? || pc.StallFinished? || pc.StallClaimed? {
      StallReadOk(c, m, s, pc);
    } else if pc.StallCompleted? || pc.Unready? {
      StallDecideOk(c, m, s, pc);
    } else if pc.PushWait? {
      PushWaitOk(c, m, s, pc.j, pc.t, pc.k);
    } else {
      if m.initCount >= S(c) {
        BarrierOpens(c, m);
      }
      LoopReadOk(c, m, s, pc);
    }
  }

  lemma ScanOk(c: Config, m: Shared, s: nat, idx: nat)
    requires Global(c, m) && SchedInv(c, m, s, Scan(idx))
    ensures var (m', pc') := SchedNext(c, m, s, Scan(idx)); SchedGuarantee(c, m, m', s) && SchedInv(c, m', s, pc')
  {
    if idx < N(c) && m.fanin[idx] == c.tasks[idx].initialFanin == 0 {
      ScanPushOk(c, m, s, idx);
    } else {
      ScanReadOk(c, m, s, idx);
      RelyReflexive(c, m, s);
    }
  }

  lemma SchedWriteStepOk(c: Config, m: Shared, s: nat, pc: SchedPc)
    requires Global(c, m) && SchedInv(c, m, s, pc)
    requires pc.PopCas? || pc.PopClear? || pc.DecCas? || pc.ProcDone? || pc.InitAdd? || pc.Fail?
    ensures var (m', pc') := SchedNext(c, m, s, pc); SchedGuarantee(c, m, m', s) && SchedInv(c, m', s, pc')
  {
    match pc {
      case PopCas(late, head) => PopCasOk(c, m, s, late, head);
      case PopClear(late, t, v) => PopClearOk(c, m, s, late, t, v);
      case DecCas(t, p, i, seen) => DecCasOk(c, m, s, t, p, i, seen);
      case ProcDone(t, p) => ProcDoneOk(c, m, s, t, p);
      case InitAdd => InitAddOk(c, m, s);
      case Fail(code, task, k) => FailOk(c, m, s, code, task, k);
    }
  }

  lemma SchedPushStepOk(c: Config, m: Shared, s: nat, pc: SchedPc)
    requires Global(c, m) && SchedInv(c, m, s, pc)
    requires pc.Scan? || pc.PushTicket? || pc.PushWrite? || pc.PushPublish?
    ensures var (m', pc') := SchedNext(c, m, s, pc); SchedGuarantee(c, m, m', s) && SchedInv(c, m', s, pc')
  {
    if pc.Scan? {
      ScanOk(c, m, s, pc.idx);
    } else if pc.PushTicket? {
      PushTicketOk(c, m, s, pc.j, pc.k);
    } else if pc.PushWrite? {
      PushWriteOk(c, m, s, pc.j, pc.t, pc.k);
    } else {
      PushPublishOk(c, m, s, pc.j, pc.t, pc.k);
    }
  }

  lemma SchedStepOk(c: Config, m: Shared, s: nat, pc: SchedPc)
    requires Global(c, m) && SchedInv(c, m, s, pc)
    ensures var (m', pc') := SchedNext(c, m, s, pc); SchedGuarantee(c, m, m', s) && SchedInv(c, m', s, pc')
  {
    if pc.PopCas? || pc.PopClear? || pc.DecCas? || pc.ProcDone? || pc.InitAdd? || pc.Fail? {
      SchedWriteStepOk(c, m, s, pc);
    } else if pc.Scan? || pc.PushTicket? || pc.PushWrite? || pc.PushPublish? {
      SchedPushStepOk(c, m, s, pc);
    } else {
      SchedReadStepOk(c, m, s, pc);
      RelyReflexive(c, m, s);
    }
  }

  // -------------------------------------------------------------------------
  // Runs
  // -------------------------------------------------------------------------

  ghost predicate Inv(c: Config, st: State) {
    && Global(c, st.m)
    && |st.scheds| == S(c) && |st.workers| == c.workerBlocks
    && (forall s :: 0 <= s < |st.scheds| ==> SchedInv(c, st.m, s, st.scheds[s]))
    && (forall w :: 0 <= w < |st.workers| ==> WorkerInv(c, st.m, w, st.workers[w]))
  }

  lemma InitOk(c: Config)
    requires Launchable(c)
    ensures Inv(c, Init(c))
  {
    EmptyOk(N(c), c.capacity);
    var m := Init(c).m;
    assert Global(c, m);
    forall s | 0 <= s < S(c) ensures SchedInv(c, m, s, Init(c).scheds[s]) {
      forall j | 0 <= j < N(c) && j % S(c) == s ensures !Covered(Scan(s), j) {
        if j < s { RemainderOf(j, S(c), 0, j); }
      }
      RemainderOf(s, S(c), 0, s);
    }
  }

  lemma SchedTurnOk(c: Config, st: State, s: nat)
    requires Inv(c, st) && s < |st.scheds|
    ensures Inv(c, Step(c, st, Sched(s)))
  {
    var st' := Step(c, st, Sched(s));
    SchedStepOk(c, st.m, s, st.scheds[s]);
    forall u | 0 <= u < |st.scheds| && u != s ensures SchedInv(c, st'.m, u, st'.scheds[u]) {
      SchedStable(c, st.m, st'.m, u, st.scheds[u]);
    }
    forall w | 0 <= w < |st.workers| ensures WorkerInv(c, st'.m, w, st'.workers[w]) {
      WorkerStable(c, st.m, st'.m, w, st.workers[w]);
    }
  }

  /** The other blocks keep their position invariant when a worker has moved. */
  lemma StableUnderWorker(c: Config, st: State, m': Shared, w: nat)
    requires Inv(c, st) && WorkerGuarantee(c, st.m, m', w)
    ensures forall s :: 0 <= s < |st.scheds| ==> SchedInv(c, m', s, st.scheds[s])
    ensures forall u :: 0 <= u < |st.workers| && u != w ==> WorkerInv(c, m', u, st.workers[u])
  {
    forall s | 0 <= s < |st.scheds| ensures SchedInv(c, m', s, st.scheds[s]) {
      SchedStable(c, st.m, m', s, st.scheds[s]);
    }
    forall u | 0 <= u < |st.workers| && u != w ensures WorkerInv(c, m', u, st.workers[u]) {
      WorkerStable(c, st.m, m', u, st.workers[u]);
    }
  }

  lemma WorkerTurnOk(c: Config, st: State, w: nat)
    requires Inv(c, st) && w < |st.workers|
    ensures Inv(c, Step(c, st, Worker(w)))
  {
    WorkerStepOk(c, st.m, w, st.workers[w]);
    StableUnderWorker(c, st, WorkerNext(c, st.m, w, st.workers[w]).0, w);
  }

  lemma StepOk(c: Config, st: State, a: Actor)
    requires Inv(c, st)
    ensures Inv(c, Step(c, st, a))
  {
    match a {
      case Sched(s) => if s < |st.scheds| { SchedTurnOk(c, st, s); }
      case Worker(w) => if w < |st.workers| { WorkerTurnOk(c, st, w); }
    }
  }

  /** The invariant holds after every schedule, whatever the task table. */
  lemma {:induction false} RunOk(c: Config, schedule: seq<Actor>)
    requires Launchable(c)
    ensures Inv(c, Run(c, Init(c), schedule))
    decreases |schedule|
  {
    if schedule == [] {
      InitOk(c);
    } else {
      var n := |schedule| - 1;
      RunOk(c, schedule[..n]);
      StepOk(c, Run(c, Init(c), schedule[..n]), schedule[n]);
    }
  }
}
