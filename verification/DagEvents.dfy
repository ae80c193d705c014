/**
 What happens to a task during a run, counted along the schedule: every task is
 visited by the scan, published, popped, executed, ticketed and retired at most
 once, and on a table with exact fan-ins a body runs only after the bodies of
 all its predecessors.
 */
module DagEvents {
  import opened TicketRing
  import opened DagModel
  import opened DagInvariant
  import opened DagSteps
  import opened DagTheorems
  import opened Arithmetic

  datatype Event = Visit | PublishTask | PopTask | RunBody | TicketDone | RetireTask

  /** The next step of actor `a` is event `e` for task `v`. */
  predicate Fires(st: State, a: Actor, e: Event, v: nat) {
    match a
    case Sched(s) =>
      s < |st.scheds| &&
      (match e
       case Visit => st.scheds[s] == Scan(v)
       case PublishTask => st.scheds[s].PushTicket? && st.scheds[s].j == v
       case RetireTask => st.scheds[s].ProcDone? && st.scheds[s].p == v
       case _ => false)
    case Worker(w) =>
      w < |st.workers| &&
      (match e
       case PopTask => st.workers[w].WClear? && st.workers[w].v == v
       case RunBody => st.workers[w].WStore? && st.workers[w].v == v
       case TicketDone => st.workers[w].WTicket? && st.workers[w].v == v
       case _ => false)
  }

  /** How often event `e` happens to task `v` while `schedule` is executed. */
  function Count(c: Config, schedule: seq<Actor>, e: Event, v: nat): nat {
    if schedule == [] then 0
    else
      var before := schedule[..|schedule| - 1];
      Count(c, before, e, v) + if Fires(Run(c, Init(c), before), schedule[|schedule| - 1], e, v) then 1 else 0
  }

  predicate Visited(pc: SchedPc, j: nat) {
    match pc
    case Scan(i) => j < i
    case PushTicket(_, ToScan(i)) => j < i
    case PushWait(_, _, ToScan(i)) => j < i
    case PushWrite(_, _, ToScan(i)) => j < i
    case PushPublish(_, _, ToScan(i)) => j < i
    case Fail(_, _, ToScan(i)) => j < i
    case _ => true
  }

  ghost predicate Happened(c: Config, st: State, e: Event, v: nat)
    requires |st.scheds| == S(c)
  {
    match e
    case Visit => Visited(st.scheds[v % S(c)], v)
    case PublishTask => v in st.m.h.published
    case PopTask => v in st.m.h.popped
    case RunBody => v in st.m.h.ran
    case TicketDone => v in st.m.h.completes
    case RetireTask => v in st.m.h.done
  }

  lemma SchedEffect(c: Config, m: Shared, s: nat, pc: SchedPc)
    ensures var h' := SchedNext(c, m, s, pc).0.h;
      && h'.published == m.h.published + (if pc.PushTicket? then {pc.j} else {})
      && h'.done == m.h.done + (if pc.ProcDone? then {pc.p} else {})
      && h'.popped == m.h.popped && h'.ran == m.h.ran && h'.completes == m.h.completes
  {
  }

  lemma WorkerEffect(c: Config, m: Shared, w: nat, pc: WorkerPc)
    ensures var h' := WorkerNext(c, m, w, pc).0.h;
      && h'.popped == m.h.popped + (if pc.WClear? then {pc.v} else {})
      && h'.ran == m.h.ran + (if pc.WStore? then {pc.v} else {})
      && h'.completes == m.h.completes + (if pc.WTicket? then {pc.v} else {})
      && h'.published == m.h.published && h'.done == m.h.done
  {
  }

  lemma ScanAdvances(c: Config, m: Shared, s: nat, pc: SchedPc, v: nat)
    requires v % S(c) == s && v < N(c) && (pc.Scan? ==> pc.idx % S(c) == s)
    ensures Visited(SchedNext(c, m, s, pc).1, v) <==> Visited(pc, v) || pc == Scan(v)
  {
    if pc.Scan? {
      if pc.idx < v {
        NextInStride(v, pc.idx, S(c));
      }
    }
  }

  lemma SchedFresh(c: Config, m: Shared, s: nat, pc: SchedPc)
    requires SchedInv(c, m, s, pc)
    ensures s < S(c) && (pc.Scan? ==> pc.idx % S(c) == s)
    ensures pc.PushTicket? ==> pc.j !in m.h.published
    ensures pc.ProcDone? ==> pc.p !in m.h.done
  {
  }

  lemma WorkerFresh(c: Config, m: Shared, w: nat, pc: WorkerPc)
    requires Global(c, m) && WorkerInv(c, m, w, pc)
    ensures pc.WClear? ==> pc.v !in m.h.popped
    ensures pc.WStore? ==> pc.v !in m.h.ran
    ensures pc.WTicket? ==> pc.v !in m.h.completes
  {
  }

  lemma SchedEventOnce(c: Config, st: State, s: nat, e: Event, v: nat)
    requires |st.scheds| == S(c) && s < S(c) && v < N(c)
    requires st.scheds[s].Scan? ==> st.scheds[s].idx % S(c) == s
    requires st.scheds[s].PushTicket? ==> st.scheds[s].j !in st.m.h.published
    requires st.scheds[s].ProcDone? ==> st.scheds[s].p !in st.m.h.done
    ensures Fires(st, Sched(s), e, v) ==> !Happened(c, st, e, v)
    ensures Happened(c, Step(c, st, Sched(s)), e, v) <==> Happened(c, st, e, v) || Fires(st, Sched(s), e, v)
  {
    SchedEffect(c, st.m, s, st.scheds[s]);
    if v % S(c) == s {
      ScanAdvances(c, st.m, s, st.scheds[s], v);
    }
  }

  lemma WorkerEventOnce(c: Config, st: State, w: nat, e: Event, v: nat)
    requires |st.scheds| == S(c) && w < |st.workers|
    requires st.workers[w].WClear? ==> st.workers[w].v !in st.m.h.popped
    requires st.workers[w].WStore? ==> st.workers[w].v !in st.m.h.ran
    requires st.workers[w].WTicket? ==> st.workers[w].v !in st.m.h.completes
    ensures Fires(st, Worker(w), e, v) ==> !Happened(c, st, e, v)
    ensures Happened(c, Step(c, st, Worker(w)), e, v) <==> Happened(c, st, e, v) || Fires(st, Worker(w), e, v)
  {
    WorkerEffect(c, st.m, w, st.workers[w]);
  }

  /** An event that happens had not happened before, and has happened afterwards. */
  lemma EventOnce(c: Config, st: State, a: Actor, e: Event, v: nat)
    requires Inv(c, st) && v < N(c)
    ensures |Step(c, st, a).scheds| == S(c)
    ensures Fires(st, a, e, v) ==> !Happened(c, st, e, v)
    ensures Happened(c, Step(c, st, a), e, v) <==> Happened(c, st, e, v) || Fires(st, a, e, v)
  {
    match a {
      case Sched(s) =>
        if s < |st.scheds| {
          SchedFresh(c, st.m, s, st.scheds[s]);
          SchedEventOnce(c, st, s, e, v);
        }
      case Worker(w) =>
        if w < |st.workers| {
          WorkerFresh(c, st.m, w, st.workers[w]);
          WorkerEventOnce(c, st, w, e, v);
        }
    }
  }

  /** Every event happens to every task at most once, for every task table. */
  lemma {:induction false} AtMostOnce(c: Config, schedule: seq<Actor>, e: Event, v: nat)
    requires Launchable(c) && v < N(c)
    ensures Count(c, schedule, e, v) <= 1
    ensures Inv(c, Run(c, Init(c), schedule))
    ensures Count(c, schedule, e, v) == 1 <==> Happened(c, Run(c, Init(c), schedule), e, v)
    decreases |schedule|
  {
    RunOk(c, schedule);
    if schedule == [] {
      if e.Visit? {
        assert v % S(c) <= v;
      }
    } else {
      var before := schedule[..|schedule| - 1];
      AtMostOnce(c, before, e, v);
      EventOnce(c, Run(c, Init(c), before), schedule[|schedule| - 1], e, v);
    }
  }

  // -------------------------------------------------------------------------
  // Start-up barrier
  // -------------------------------------------------------------------------

  lemma CountDownIsAfterScan(c: Config, m: Shared, s: nat, pc: SchedPc)
    requires SchedInv(c, m, s, pc) && (pc.DecRead? || pc.DecCas?)
    ensures AllInited(c, m.h.inited)
  {
  }

  lemma InitedHasVisited(c: Config, m: Shared, u: nat, pc: SchedPc, v: nat)
    requires SchedInv(c, m, u, pc) && u in m.h.inited
    ensures Visited(pc, v)
  {
    InScanUntilInited(c, m, u, pc);
  }

  /** A fan-in is counted down only after the scan has visited every task exactly once. */
  lemma ScanBeforeCountDown(c: Config, schedule: seq<Actor>, s: nat, v: nat)
    requires Launchable(c) && v < N(c) && s < S(c)
    requires |Run(c, Init(c), schedule).scheds| == S(c)
    requires var pc := Run(c, Init(c), schedule).scheds[s]; pc.DecRead? || pc.DecCas?
    ensures Count(c, schedule, Visit, v) == 1
  {
    AtMostOnce(c, schedule, Visit, v);
    var st := Run(c, Init(c), schedule);
    CountDownIsAfterScan(c, st.m, s, st.scheds[s]);
    InitedHasVisited(c, st.m, v % S(c), st.scheds[v % S(c)], v);
  }

  // -------------------------------------------------------------------------
  // Dependency order
  // -------------------------------------------------------------------------

  /** In every reachable state the fan-in and the counted-down edges add up to the uploaded fan-in. */
  lemma FaninConserved(c: Config, schedule: seq<Actor>, j: nat)
    requires Launchable(c) && j < N(c)
    ensures var m := Run(c, Init(c), schedule).m;
      && |m.fanin| == |m.h.dec| == N(c)
      && m.fanin[j] + |m.h.dec[j]| == c.fanin0[j]
      && m.h.dec[j] <= Preds(c, j)
  {
    RunOk(c, schedule);
    var m := Run(c, Init(c), schedule).m;
    DecInPreds(c, m, j);
  }

  /** With exact fan-ins, a published task has had every incoming edge counted down. */
  lemma PublishedIsReady(c: Config, m: Shared, j: nat)
    requires Global(c, m) && ExactFanin(c) && j in m.h.published
    ensures j < N(c) && m.h.dec[j] == Preds(c, j) && Preds(c, j) <= m.h.claimed
  {
    DecInPreds(c, m, j);
    SubsetSize(m.h.dec[j], Preds(c, j));
    assert m.fanin[j] == 0;
  }

  /** Worker position at which the body of a task is about to run or running. */
  predicate Executing(pc: WorkerPc) {
    pc.WDispatch? || pc.WLoad? || pc.WStore?
  }

  lemma ExecutingIsReady(c: Config, m: Shared, w: nat, pc: WorkerPc)
    requires Global(c, m) && WorkerInv(c, m, w, pc) && ExactFanin(c) && Executing(pc)
    ensures pc.v < N(c) && pc.v !in m.h.ran && m.h.dec[pc.v] == Preds(c, pc.v) && Preds(c, pc.v) <= m.h.ran
  {
    PublishedIsReady(c, m, pc.v);
  }

  /**
   A worker dispatches a task only after the body of every predecessor has run
   and its completion edge has been counted down, for any number of blocks.
   */
  lemma DependencyOrder(c: Config, schedule: seq<Actor>, w: nat, p: nat)
    requires Launchable(c) && ExactFanin(c)
    requires var st := Run(c, Init(c), schedule);
      w < |st.workers| && Executing(st.workers[w]) && p in Preds(c, st.workers[w].v)
    ensures var st := Run(c, Init(c), schedule); var v := st.workers[w].v;
      Count(c, schedule, RunBody, p) == 1 && v < |st.m.h.dec| && p in st.m.h.dec[v]
  {
    RunOk(c, schedule);
    var st := Run(c, Init(c), schedule);
    ExecutingIsReady(c, st.m, w, st.workers[w]);
    AtMostOnce(c, schedule, RunBody, p);
  }

  // -------------------------------------------------------------------------
  // Rings and the error latch
  // -------------------------------------------------------------------------

  /** Ticket `t` carries the value pushed under it, and its slot is still occupied by it. */
  ghost predicate Intact(r: Ring, t: nat, v: nat) {
    t < |r.vals| && v == r.vals[t] && t < |r.queue| && r.queue[t] == v && t < |r.flags| && r.flags[t] == t + 1
  }

  /** The value popped under a ticket is the value pushed under that ticket, in both rings. */
  lemma PoppedIsPushed(c: Config, schedule: seq<Actor>)
    requires Launchable(c)
    ensures var st := Run(c, Init(c), schedule);
      && (forall w :: 0 <= w < |st.workers| && st.workers[w].WClear? ==>
            Intact(st.m.ready, st.workers[w].t, st.workers[w].v))
      && (forall s :: 0 <= s < |st.scheds| && st.scheds[s].PopClear? ==>
            Intact(st.m.comp, st.scheds[s].t, st.scheds[s].v))
  {
    RunOk(c, schedule);
    var st := Run(c, Init(c), schedule);
    forall w | 0 <= w < |st.workers| && st.workers[w].WClear?
      ensures Intact(st.m.ready, st.workers[w].t, st.workers[w].v)
    {
      assert WorkerInv(c, st.m, w, st.workers[w]);
    }
    forall s | 0 <= s < |st.scheds| && st.scheds[s].PopClear?
      ensures Intact(st.m.comp, st.scheds[s].t, st.scheds[s].v)
    {
      assert SchedInv(c, st.m, s, st.scheds[s]);
    }
  }

  lemma ErrorKept(c: Config, st: State, a: Actor)
    requires st.m.err.Error?
    ensures Step(c, st, a).m.err == st.m.err
  {
  }

  /** The error latch is won once: the first recorded error stays. */
  lemma {:induction false} ErrorSticks(c: Config, schedule: seq<Actor>, k: nat)
    requires k <= |schedule| && Run(c, Init(c), schedule[..k]).m.err.Error?
    ensures Run(c, Init(c), schedule).m.err == Run(c, Init(c), schedule[..k]).m.err
    decreases |schedule|
  {
    if k == |schedule| {
      assert schedule[..k] == schedule;
    } else {
      var before := schedule[..|schedule| - 1];
      assert before[..k] == schedule[..k];
      ErrorSticks(c, before, k);
      ErrorKept(c, Run(c, Init(c), before), schedule[|schedule| - 1]);
    }
  }
}
