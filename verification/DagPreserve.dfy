/**
 Every step of every block keeps the invariant of the executor.
 */
module DagPreserve {
  import opened TicketRing
  import opened DagModel
  import opened DagInvariant
  import opened Arithmetic

  /** What a step of scheduler `s` guarantees to the memory and to everybody else. */
  ghost predicate SchedGuarantee(c: Config, m: Shared, m': Shared, s: nat) {
    && Global(c, m')
    && (forall a :: a != s ==> RelySched(c, m, m', a))
    && (forall w :: RelyWorker(c, m, m', w))
  }

  ghost predicate WorkerGuarantee(c: Config, m: Shared, m': Shared, w: nat) {
    && Global(c, m')
    && (forall s :: RelySched(c, m, m', s))
    && (forall a :: a != w ==> RelyWorker(c, m, m', a))
  }

  // -------------------------------------------------------------------------
  // Steps that only read shared memory
  // -------------------------------------------------------------------------

  lemma RelyReflexive(c: Config, m: Shared, s: nat)
    requires Global(c, m)
    ensures SchedGuarantee(c, m, m, s) && WorkerGuarantee(c, m, m, s)
  {
  }

  /** The barrier opens only when every scheduler has finished its scan. */
  lemma BarrierOpens(c: Config, m: Shared)
    requires Global(c, m) && m.initCount >= S(c)
    ensures AllInited(c, m.h.inited)
  {
    BoundedSet(m.h.inited, S(c));
  }

  /** During a scan no edge has been counted down yet. */
  lemma NoEdgeDuringScan(c: Config, m: Shared, s: nat)
    requires Global(c, m) && s < S(c) && s !in m.h.inited
    ensures m.h.claimed == {}
    ensures forall j :: 0 <= j < N(c) ==> m.h.dec[j] == {} && m.fanin[j] == c.fanin0[j]
  {
    assert !AllInited(c, m.h.inited);
    forall j | 0 <= j < N(c) ensures m.h.dec[j] == {} && m.fanin[j] == c.fanin0[j] {
      assert forall p :: p in m.h.dec[j] ==> p in m.h.claimed;
      assert m.h.dec[j] == {};
      assert m.fanin[j] + |m.h.dec[j]| == c.fanin0[j];
    }
  }

  lemma ScanReadOk(c: Config, m: Shared, s: nat, idx: nat)
    requires Global(c, m) && SchedInv(c, m, s, Scan(idx))
    requires idx < N(c) ==> m.fanin[idx] != c.tasks[idx].initialFanin || c.tasks[idx].initialFanin != 0
    ensures var (m', pc') := SchedNext(c, m, s, Scan(idx)); m' == m && SchedInv(c, m, s, pc')
  {
    NoEdgeDuringScan(c, m, s);
    AddStride(idx, S(c));
    forall j | 0 <= j < N(c) && j % S(c) == s && idx < j ensures idx + S(c) <= j {
      NextInStride(j, idx, S(c));
    }
  }

  lemma TouchedNext(c: Config, dec: seq<set<nat>>, p: nat, i: nat)
    requires |dec| == N(c) && TouchedTo(c, dec, p, i) && i < |Deps(c, p)|
    ensures TouchedTo(c, dec, p, i + 1)
  {
    assert forall j :: j in Deps(c, p)[..i] ==> j in Deps(c, p)[..i + 1];
  }

  lemma ProcOk(c: Config, m: Shared, s: nat, t: nat, p: nat, i: nat)
    requires SchedInv(c, m, s, Proc(t, p, i))
    ensures SchedInv(c, m, s, ProcStep(c, t, p, i))
  {
    LawsKept(c, m, m, s, Proc(t, p, i), ProcStep(c, t, p, i));
    if i < |Deps(c, p)| {
      TouchedNext(c, m.h.dec, p, i);
    }
  }

  lemma DecReadOk(c: Config, m: Shared, s: nat, t: nat, p: nat, i: nat)
    requires SchedInv(c, m, s, DecRead(t, p, i))
    ensures SchedInv(c, m, s, DecReadStep(c, m, t, p, i))
  {
    LawsKept(c, m, m, s, DecRead(t, p, i), DecReadStep(c, m, t, p, i));
    TouchedNext(c, m.h.dec, p, i);
  }

  lemma ProcStartOk(c: Config, m: Shared, s: nat, t: nat, p: nat)
    requires SchedInv(c, m, s, ProcStart(t, p))
    ensures SchedInv(c, m, s, SchedNext(c, m, s, ProcStart(t, p)).1)
  {
    LawsKept(c, m, m, s, ProcStart(t, p), SchedNext(c, m, s, ProcStart(t, p)).1);
  }

  lemma PushWaitOk(c: Config, m: Shared, s: nat, j: nat, t: nat, k: Cont)
    requires SchedInv(c, m, s, PushWait(j, t, k))
    ensures var (m', pc') := SchedNext(c, m, s, PushWait(j, t, k)); m' == m && SchedInv(c, m, s, pc')
  {
    HoldingSlotIsFree(m.ready, N(c), c.capacity, s, t, j);
    LawsKept(c, m, m, s, PushWait(j, t, k), PushWrite(j, t, k));
  }

  /** Reads that lead from the scan to the main loop. */
  lemma LoopReadOk(c: Config, m: Shared, s: nat, pc: SchedPc)
    requires SchedInv(c, m, s, pc)
    requires pc.Barrier? || pc.BarrierErr? || pc.CheckEmpty? || pc.LoopCompleted? || pc.LoopError? || pc.SchedDone?
    requires pc.Barrier? && m.initCount >= S(c) ==> AllInited(c, m.h.inited)
    ensures var (m', pc') := SchedNext(c, m, s, pc); m' == m && SchedInv(c, m, s, pc')
  {
    LawsKept(c, m, m, s, pc, SchedNext(c, m, s, pc).1);
  }

  /** Reads of the attempt to pop a completion. */
  lemma PopReadOk(c: Config, m: Shared, s: nat, pc: SchedPc)
    requires SchedInv(c, m, s, pc)
    requires pc.PopHead? || pc.PopTail? || pc.PopSpinErr?
    ensures var (m', pc') := SchedNext(c, m, s, pc); m' == m && SchedInv(c, m, s, pc')
  {
  }

  lemma PopFlagOk(c: Config, m: Shared, s: nat, pc: SchedPc)
    requires SchedInv(c, m, s, pc)
    requires pc.PopSpin? || pc.PopRead?
    ensures var (m', pc') := SchedNext(c, m, s, pc); m' == m && SchedInv(c, m, s, pc')
  {
    if pc.PopSpin? {
      FlagMeansPublished(m.comp, N(c), c.capacity, pc.t);
    } else {
      ReadsPushedValue(m.comp, N(c), c.capacity, s, pc.t);
    }
  }

  /** Reads of the stall detector. */
  lemma StallReadOk(c: Config, m: Shared, s: nat, pc: SchedPc)
    requires SchedInv(c, m, s, pc)
    requires pc.StallTail? || pc.StallFinished? || pc.StallClaimed?
    ensures var (m', pc') := SchedNext(c, m, s, pc); m' == m && SchedInv(c, m, s, pc')
  {
    LawsKept(c, m, m, s, pc, SchedNext(c, m, s, pc).1);
  }

  lemma StallDecideOk(c: Config, m: Shared, s: nat, pc: SchedPc)
    requires SchedInv(c, m, s, pc)
    requires pc.StallCompleted? || pc.Unready?
    ensures var (m', pc') := SchedNext(c, m, s, pc); m' == m && SchedInv(c, m, s, pc')
  {
    LawsKept(c, m, m, s, pc, SchedNext(c, m, s, pc).1);
  }

  // -------------------------------------------------------------------------
  // Steps that write shared memory
  // -------------------------------------------------------------------------

  function Assign(m: Shared, s: nat, idx: nat): Shared {
    m.(h := m.h.(owner := Store(m.h.owner, idx, s)))
  }

  lemma AssignGlobal(c: Config, m: Shared, s: nat, idx: nat)
    requires Global(c, m) && s < S(c) && idx < N(c) && m.fanin[idx] == 0 && m.h.owner[idx] == -1
    ensures Global(c, Assign(m, s, idx))
  {
  }

  lemma AssignRely(c: Config, m: Shared, s: nat, idx: nat, a: nat)
    requires Shape(c, m) && idx < N(c) && idx % S(c) == s && m.h.owner[idx] == -1
    ensures RelyWorker(c, m, Assign(m, s, idx), a) && (a != s ==> RelySched(c, m, Assign(m, s, idx), a))
  {
  }

  lemma AssignGuarantee(c: Config, m: Shared, s: nat, idx: nat)
    requires Global(c, m) && s < S(c) && idx < N(c) && idx % S(c) == s && m.fanin[idx] == 0 && m.h.owner[idx] == -1
    ensures SchedGuarantee(c, m, Assign(m, s, idx), s)
  {
    AssignGlobal(c, m, s, idx);
    forall a: nat
      ensures RelyWorker(c, m, Assign(m, s, idx), a) && (a != s ==> RelySched(c, m, Assign(m, s, idx), a))
    {
      AssignRely(c, m, s, idx, a);
    }
  }

  lemma AssignLaws(c: Config, m: Shared, s: nat, idx: nat)
    requires Shape(c, m) && s < S(c) && idx < N(c) && c.fanin0[idx] == c.tasks[idx].initialFanin
    requires ScanLaw(c, m, s, Scan(idx)) && OwnerLaw(c, m, s, Scan(idx)) && idx % S(c) == s
    ensures var pc' := PushTicket(idx, ToScan(idx + S(c)));
      ScanLaw(c, Assign(m, s, idx), s, pc') && OwnerLaw(c, Assign(m, s, idx), s, pc')
  {
    forall j | 0 <= j < N(c) && j % S(c) == s && idx < j ensures idx + S(c) <= j {
      NextInStride(j, idx, S(c));
    }
  }

  lemma ScanPushOk(c: Config, m: Shared, s: nat, idx: nat)
    requires Global(c, m) && SchedInv(c, m, s, Scan(idx))
    requires idx < N(c) && m.fanin[idx] == c.tasks[idx].initialFanin == 0
    ensures var (m', pc') := SchedNext(c, m, s, Scan(idx));
      SchedGuarantee(c, m, m', s) && SchedInv(c, m', s, pc')
  {
    NoEdgeDuringScan(c, m, s);
    AddStride(idx, S(c));
    AssignGuarantee(c, m, s, idx);
    AssignLaws(c, m, s, idx);
  }

  lemma TicketLeft(c: Config, m: Shared, j: nat)
    requires LifeCycle(c, m) && j < N(c) && j !in m.h.published
    ensures m.ready.tail < N(c)
  {
    BoundedSet(m.h.published + {j}, N(c));
  }

  lemma TakeTicketLinks(c: Config, m: Shared, s: nat, j: nat)
    requires Shape(c, m) && LifeCycle(c, m) && RingLinks(c, m) && j < N(c) && j !in m.h.published
    ensures var m' := TakeTicket(m, s, j); Shape(c, m') && LifeCycle(c, m') && RingLinks(c, m')
  {
    TicketLeft(c, m, j);
    DrawPushOk(m.ready, N(c), c.capacity, s, j);
  }

  lemma TakeTicketOrder(c: Config, m: Shared, s: nat, j: nat)
    requires Shape(c, m) && LifeCycle(c, m) && RingLinks(c, m) && FaninLaw(c, m.fanin, m.h) && PublishOrder(c, m)
    requires j < N(c) && j !in m.h.published
    requires var m' := TakeTicket(m, s, j); Shape(c, m') && LifeCycle(c, m') && RingLinks(c, m')
    ensures PublishOrder(c, TakeTicket(m, s, j))
  {
    var m' := TakeTicket(m, s, j);
    forall b | 0 <= b < m'.ready.tail ensures j !in m.h.dec[m'.ready.vals[b]] {
      assert j in m.h.claimed ==> j in m.h.published;
    }
  }

  lemma TakeTicketGlobal(c: Config, m: Shared, s: nat, j: nat)
    requires Global(c, m) && j < N(c) && m.h.owner[j] == s && j !in m.h.published
    ensures Global(c, TakeTicket(m, s, j))
  {
    TakeTicketLinks(c, m, s, j);
    TakeTicketOrder(c, m, s, j);
  }

  /** What a new ready ticket leaves alone, for everybody. */
  lemma TakeTicketKeeps(c: Config, m: Shared, s: nat, j: nat, a: nat)
    requires Shape(c, m) && Shape(c, TakeTicket(m, s, j)) && m.ready.tail < N(c)
    ensures KeepsWork(c, m, TakeTicket(m, s, j), a) && KeepsPush(m.ready, TakeTicket(m, s, j).ready, a)
    ensures Holding(TakeTicket(m, s, j).ready, s, m.ready.tail, j)
  {
    DrawPushOk(m.ready, N(c), c.capacity, s, j);
  }

  lemma TakeTicketWorker(c: Config, m: Shared, s: nat, j: nat, w: nat)
    requires Shape(c, m) && Shape(c, TakeTicket(m, s, j)) && m.ready.tail < N(c)
    ensures RelyWorker(c, m, TakeTicket(m, s, j), w)
  {
    DrawPushOk(m.ready, N(c), c.capacity, s, j);
  }

  lemma TakeTicketOwned(c: Config, m: Shared, s: nat, j: nat, a: nat)
    requires j < N(c) && Common(c, m, TakeTicket(m, s, j)) && m.h.owner[j] == s && a != s
    ensures KeepsOwned(c, m, TakeTicket(m, s, j), a)
  {
  }

  lemma TakeTicketRely(c: Config, m: Shared, s: nat, j: nat)
    requires Global(c, m) && j < N(c) && m.h.owner[j] == s && j !in m.h.published
    requires Global(c, TakeTicket(m, s, j))
    ensures SchedGuarantee(c, m, TakeTicket(m, s, j), s)
  {
    TicketLeft(c, m, j);
    forall a: nat | a != s ensures RelySched(c, m, TakeTicket(m, s, j), a) {
      TakeTicketKeeps(c, m, s, j, a);
      TakeTicketOwned(c, m, s, j, a);
    }
    forall w: nat ensures RelyWorker(c, m, TakeTicket(m, s, j), w) {
      TakeTicketWorker(c, m, s, j, w);
    }
  }

  lemma PushTicketOk(c: Config, m: Shared, s: nat, j: nat, k: Cont)
    requires Global(c, m) && SchedInv(c, m, s, PushTicket(j, k))
    ensures var (m', pc') := SchedNext(c, m, s, PushTicket(j, k));
      SchedGuarantee(c, m, m', s) && SchedInv(c, m', s, pc')
  {
    TakeTicketGlobal(c, m, s, j);
    TakeTicketRely(c, m, s, j);
    TicketLeft(c, m, j);
    TakeTicketKeeps(c, m, s, j, s);
    var m' := TakeTicket(m, s, j);
    ContStable(c, m, m', s, k, false);
    LawsKept(c, m, m', s, PushTicket(j, k), PushWait(j, m.ready.tail, k));
  }

  lemma PushWriteGuarantee(c: Config, m: Shared, s: nat, j: nat, t: nat)
    requires Global(c, m) && Holding(m.ready, s, t, j)
    ensures var m' := m.(ready := Write(m.ready, c.capacity, t, j)); SchedGuarantee(c, m, m', s) && KeepsWork(c, m, m', s)
  {
    WriteOk(m.ready, N(c), c.capacity, s, t, j);
  }

  lemma PushWriteOk(c: Config, m: Shared, s: nat, j: nat, t: nat, k: Cont)
    requires Global(c, m) && SchedInv(c, m, s, PushWrite(j, t, k))
    ensures var (m', pc') := SchedNext(c, m, s, PushWrite(j, t, k));
      SchedGuarantee(c, m, m', s) && SchedInv(c, m', s, pc')
  {
    PushWriteGuarantee(c, m, s, j, t);
    WriteOk(m.ready, N(c), c.capacity, s, t, j);
    var m' := m.(ready := Write(m.ready, c.capacity, t, j));
    ContStable(c, m, m', s, k, false);
    LawsKept(c, m, m', s, PushWrite(j, t, k), PushPublish(j, t, k));
  }

  lemma PushPublishGlobal(c: Config, m: Shared, s: nat, j: nat, t: nat)
    requires Global(c, m) && Holding(m.ready, s, t, j) && m.ready.queue[t] == j
    ensures Global(c, m.(ready := Publish(m.ready, c.capacity, t)))
  {
    PublishOk(m.ready, N(c), c.capacity, s, t, j);
  }

  lemma PushPublishGuarantee(c: Config, m: Shared, s: nat, j: nat, t: nat)
    requires Global(c, m) && Holding(m.ready, s, t, j) && m.ready.queue[t] == j
    ensures var m' := m.(ready := Publish(m.ready, c.capacity, t)); SchedGuarantee(c, m, m', s) && KeepsWork(c, m, m', s)
  {
    PushPublishGlobal(c, m, s, j, t);
    PublishOk(m.ready, N(c), c.capacity, s, t, j);
  }

  lemma PushPublishOk(c: Config, m: Shared, s: nat, j: nat, t: nat, k: Cont)
    requires Global(c, m) && SchedInv(c, m, s, PushPublish(j, t, k))
    ensures var (m', pc') := SchedNext(c, m, s, PushPublish(j, t, k));
      SchedGuarantee(c, m, m', s) && SchedInv(c, m', s, pc')
  {
    PushPublishGuarantee(c, m, s, j, t);
    var (m', pc') := SchedNext(c, m, s, PushPublish(j, t, k));
    ContStable(c, m, m', s, k, false);
    LawsKept(c, m, m', s, PushPublish(j, t, k), pc');
    ResumeOk(c, m', s, k);
  }

  lemma RecordErrorSched(c: Config, m: Shared, code: nat, task: nat, s: nat)
    requires Global(c, m)
    ensures RelySched(c, m, RecordError(m, code, task), s)
  {
  }

  lemma RecordErrorRely(c: Config, m: Shared, code: nat, task: nat, s: nat)
    requires Global(c, m)
    ensures var m' := RecordError(m, code, task); SchedGuarantee(c, m, m', s) && WorkerGuarantee(c, m, m', s)
    ensures RelySched(c, m, RecordError(m, code, task), s)
  {
    forall a ensures RelySched(c, m, RecordError(m, code, task), a) {
      RecordErrorSched(c, m, code, task, a);
    }
  }

  lemma FailOk(c: Config, m: Shared, s: nat, code: nat, task: nat, k: Cont)
    requires Global(c, m) && SchedInv(c, m, s, Fail(code, task, k))
    ensures var (m', pc') := SchedNext(c, m, s, Fail(code, task, k));
      SchedGuarantee(c, m, m', s) && SchedInv(c, m', s, pc')
  {
    RecordErrorRely(c, m, code, task, s);
    var m' := RecordError(m, code, task);
    ContStable(c, m, m', s, k, true);
    ContFailed(c, m', s, k);
    FailedLaws(c, m, m', s, code, task, k);
    ResumeOk(c, m', s, k);
  }

  lemma AnnounceGlobal(c: Config, m: Shared, s: nat)
    requires Global(c, m) && s < S(c) && s !in m.h.inited
    ensures Global(c, Announce(m, s))
  {
  }

  lemma AnnounceRely(c: Config, m: Shared, s: nat, a: nat)
    requires Shape(c, m)
    ensures RelyWorker(c, m, Announce(m, s), a) && (a != s ==> RelySched(c, m, Announce(m, s), a))
  {
  }

  lemma AnnounceGuarantee(c: Config, m: Shared, s: nat)
    requires Global(c, m) && s < S(c) && s !in m.h.inited
    ensures SchedGuarantee(c, m, Announce(m, s), s)
  {
    AnnounceGlobal(c, m, s);
    forall a: nat
      ensures RelyWorker(c, m, Announce(m, s), a) && (a != s ==> RelySched(c, m, Announce(m, s), a))
    {
      AnnounceRely(c, m, s, a);
    }
  }

  lemma InitAddOk(c: Config, m: Shared, s: nat)
    requires Global(c, m) && SchedInv(c, m, s, InitAdd)
    ensures var (m', pc') := SchedNext(c, m, s, InitAdd);
      SchedGuarantee(c, m, m', s) && SchedInv(c, m', s, pc')
  {
    AnnounceGuarantee(c, m, s);
    LawsKept(c, m, Announce(m, s), s, InitAdd, Barrier);
  }

  lemma ClaimGlobal(c: Config, m: Shared, s: nat)
    requires Global(c, m) && m.comp.head < m.comp.tail && AllInited(c, m.h.inited)
    ensures Global(c, Claim(m, s))
  {
    DrawPopOk(m.comp, N(c), c.capacity, s);
  }

  lemma ClaimKeeps(c: Config, m: Shared, s: nat, a: nat)
    requires Shape(c, m) && Shape(c, Claim(m, s))
    ensures RelyWorker(c, m, Claim(m, s), a) && (a != s ==> RelySched(c, m, Claim(m, s), a))
  {
    DrawPopOk(m.comp, N(c), c.capacity, s);
  }

  lemma ClaimRely(c: Config, m: Shared, s: nat)
    requires Global(c, m) && Global(c, Claim(m, s))
    ensures SchedGuarantee(c, m, Claim(m, s), s)
  {
    forall a: nat ensures RelyWorker(c, m, Claim(m, s), a) && (a != s ==> RelySched(c, m, Claim(m, s), a)) {
      ClaimKeeps(c, m, s, a);
    }
  }

  /** The claimed task has not been touched by anybody. */
  lemma ClaimLocal(c: Config, m: Shared, s: nat, late: bool)
    requires Shape(c, m) && LifeCycle(c, m) && RingLinks(c, m) && FaninLaw(c, m.fanin, m.h)
    requires m.comp.head < m.comp.tail && AllInited(c, m.h.inited) && Shape(c, Claim(m, s))
    ensures SchedLocal(c, Claim(m, s), s, PopSpin(late, m.comp.head))
  {
    DrawPopOk(m.comp, N(c), c.capacity, s);
    assert m.comp.vals[m.comp.head] !in m.h.claimed;
  }

  lemma PopCasOk(c: Config, m: Shared, s: nat, late: bool, head: nat)
    requires Global(c, m) && SchedInv(c, m, s, PopCas(late, head))
    ensures var (m', pc') := SchedNext(c, m, s, PopCas(late, head));
      SchedGuarantee(c, m, m', s) && SchedInv(c, m', s, pc')
  {
    if m.comp.head == head {
      ClaimGlobal(c, m, s);
      ClaimRely(c, m, s);
      ClaimLocal(c, m, s, late);
      LawsKept(c, m, Claim(m, s), s, PopCas(late, head), PopSpin(late, head));
    } else {
      RelyReflexive(c, m, s);
      LawsKept(c, m, m, s, PopCas(late, head), PopHead(late));
    }
  }

  lemma PopClearGuarantee(c: Config, m: Shared, s: nat, t: nat)
    requires Global(c, m) && Reading(m.comp, s, t)
    ensures SchedGuarantee(c, m, m.(comp := Clear(m.comp, c.capacity, t)), s)
  {
    ClearOk(m.comp, N(c), c.capacity, s, t);
  }

  lemma PopClearOk(c: Config, m: Shared, s: nat, late: bool, t: nat, v: nat)
    requires Global(c, m) && SchedInv(c, m, s, PopClear(late, t, v))
    ensures var (m', pc') := SchedNext(c, m, s, PopClear(late, t, v));
      SchedGuarantee(c, m, m', s) && SchedInv(c, m', s, pc')
  {
    PopClearGuarantee(c, m, s, t);
    ClearOk(m.comp, N(c), c.capacity, s, t);
    LawsKept(c, m, m.(comp := Clear(m.comp, c.capacity, t)), s, PopClear(late, t, v), ProcStart(t, v));
  }

  lemma RetireGlobal(c: Config, m: Shared, p: nat)
    requires Global(c, m) && p in m.h.claimed && p !in m.h.done
    requires m.err.NoError? ==> InBounds(c, p) && SettledTo(c, m.h.dec, p, |Deps(c, p)|)
    ensures Global(c, Retire(m, p))
  {
  }

  lemma RetireKeeps(c: Config, m: Shared, s: nat, t: nat, p: nat, a: nat)
    requires Shape(c, m) && RingLinks(c, m) && Shape(c, Retire(m, p)) && Took(m.comp, s, t, p)
    ensures RelyWorker(c, m, Retire(m, p), a) && (a != s ==> RelySched(c, m, Retire(m, p), a))
  {
  }

  lemma RetireRely(c: Config, m: Shared, s: nat, t: nat, p: nat)
    requires Global(c, m) && Processing(c, m, s, t, p) && Global(c, Retire(m, p))
    ensures SchedGuarantee(c, m, Retire(m, p), s)
  {
    forall a: nat ensures RelyWorker(c, m, Retire(m, p), a) && (a != s ==> RelySched(c, m, Retire(m, p), a)) {
      RetireKeeps(c, m, s, t, p, a);
    }
  }

  lemma RetireFrom(c: Config, m: Shared, s: nat, t: nat, p: nat)
    requires Global(c, m) && SchedInv(c, m, s, ProcDone(t, p))
    ensures SchedGuarantee(c, m, Retire(m, p), s)
  {
    RetireGlobal(c, m, p);
    RetireRely(c, m, s, t, p);
  }

  lemma ProcDoneOk(c: Config, m: Shared, s: nat, t: nat, p: nat)
    requires Global(c, m) && SchedInv(c, m, s, ProcDone(t, p))
    ensures var (m', pc') := SchedNext(c, m, s, ProcDone(t, p));
      SchedGuarantee(c, m, m', s) && SchedInv(c, m', s, pc')
  {
    RetireFrom(c, m, s, t, p);
    LawsKept(c, m, Retire(m, p), s, ProcDone(t, p), LoopCompleted);
  }

  /** Counting down more edges never unsettles a dependent. */
  lemma SettledMonotone(c: Config, dec: seq<set<nat>>, dec': seq<set<nat>>, p: nat, i: nat)
    requires |dec| == |dec'| == N(c) && (forall j :: 0 <= j < N(c) ==> dec[j] <= dec'[j])
    requires SettledTo(c, dec, p, i)
    ensures SettledTo(c, dec', p, i)
  {
    forall k | 0 <= k < i ensures Settled(c, dec', p, k) {
      assert Settled(c, dec, p, k);
    }
  }

  /** The pending edge has not been counted down and its target is not published. */
  lemma PendingIsFresh(c: Config, m: Shared, s: nat, t: nat, p: nat, i: nat)
    requires Global(c, m) && Pending(c, m, s, t, p, i)
    ensures var d := Deps(c, p)[i];
      p !in m.h.dec[d] && p in m.h.claimed && (m.fanin[d] > 0 ==> d !in m.h.published && m.h.owner[d] == -1)
  {
  }

  lemma CountDownConserves(c: Config, m: Shared, s: nat, d: nat, p: nat)
    requires Shape(c, m) && FaninLaw(c, m.fanin, m.h) && d < N(c) && p !in m.h.dec[d] && m.fanin[d] > 0
    requires p in m.h.claimed && d in Deps(c, p) && m.h.owner[d] == -1 && d !in m.h.published && s < S(c)
    ensures var m' := CountDown(m, s, d, p, m.fanin[d]); Shape(c, m') && FaninLaw(c, m'.fanin, m'.h)
  {
    assert |m.h.dec[d] + {p}| == |m.h.dec[d]| + 1;
  }

  lemma CountDownFanin(c: Config, m: Shared, s: nat, t: nat, p: nat, i: nat)
    requires s < S(c) && Global(c, m) && Pending(c, m, s, t, p, i) && m.fanin[Deps(c, p)[i]] > 0
    ensures var d := Deps(c, p)[i]; var m' := CountDown(m, s, d, p, m.fanin[d]);
      Shape(c, m') && FaninLaw(c, m'.fanin, m'.h)
  {
    PendingIsFresh(c, m, s, t, p, i);
    CountDownConserves(c, m, s, Deps(c, p)[i], p);
  }

  lemma CountDownDone(c: Config, m: Shared, s: nat, t: nat, p: nat, i: nat)
    requires s < S(c) && Global(c, m) && Pending(c, m, s, t, p, i) && m.fanin[Deps(c, p)[i]] > 0
    ensures var d := Deps(c, p)[i]; var m' := CountDown(m, s, d, p, m.fanin[d]);
      && DoneLaw(c, m'.err, m'.h.dec, m'.h.done)
      && (m.err.NoError? ==> SettledTo(c, m'.h.dec, p, i + 1))
      && TouchedTo(c, m'.h.dec, p, i + 1)
  {
    var d := Deps(c, p)[i];
    var dec' := CountDown(m, s, d, p, m.fanin[d]).h.dec;
    if m.err.NoError? {
      forall q | q in m.h.done ensures SettledTo(c, dec', q, |Deps(c, q)|) {
        SettledMonotone(c, m.h.dec, dec', q, |Deps(c, q)|);
      }
      SettledMonotone(c, m.h.dec, dec', p, i);
      assert Settled(c, dec', p, i);
    }
    assert Deps(c, p)[..i + 1] == Deps(c, p)[..i] + [d];
  }

  lemma CountDownGlobal(c: Config, m: Shared, s: nat, t: nat, p: nat, i: nat)
    requires s < S(c) && Global(c, m) && Pending(c, m, s, t, p, i) && m.fanin[Deps(c, p)[i]] > 0
    ensures var d := Deps(c, p)[i]; Global(c, CountDown(m, s, d, p, m.fanin[d]))
  {
    PendingIsFresh(c, m, s, t, p, i);
    CountDownFanin(c, m, s, t, p, i);
    CountDownDone(c, m, s, t, p, i);
  }

  lemma CountDownRely(c: Config, m: Shared, s: nat, t: nat, p: nat, i: nat, a: nat)
    requires s < S(c) && Global(c, m) && Pending(c, m, s, t, p, i) && m.fanin[Deps(c, p)[i]] > 0 && a != s
    ensures var d := Deps(c, p)[i]; RelySched(c, m, CountDown(m, s, d, p, m.fanin[d]), a)
  {
    PendingIsFresh(c, m, s, t, p, i);
    CountDownFanin(c, m, s, t, p, i);
    var d := Deps(c, p)[i];
    var m' := CountDown(m, s, d, p, m.fanin[d]);
    forall u | 0 <= u < m.comp.head && m.comp.takers[u] == a
      ensures KeepsTask(c, m.h, m'.h, m.comp.vals[u])
    {
      assert u != t;
    }
    assert KeepsOwned(c, m, m', a);
  }

  lemma CountDownWorker(c: Config, m: Shared, s: nat, d: nat, p: nat, w: nat)
    requires Shape(c, m) && d < N(c) && m.fanin[d] > 0 && Shape(c, CountDown(m, s, d, p, m.fanin[d]))
    ensures RelyWorker(c, m, CountDown(m, s, d, p, m.fanin[d]), w)
  {
  }

  lemma CountDownGuarantee(c: Config, m: Shared, s: nat, t: nat, p: nat, i: nat)
    requires s < S(c) && Global(c, m) && Pending(c, m, s, t, p, i) && m.fanin[Deps(c, p)[i]] > 0
    ensures var d := Deps(c, p)[i]; SchedGuarantee(c, m, CountDown(m, s, d, p, m.fanin[d]), s)
  {
    var d := Deps(c, p)[i];
    CountDownGlobal(c, m, s, t, p, i);
    forall w: nat ensures RelyWorker(c, m, CountDown(m, s, d, p, m.fanin[d]), w) {
      CountDownWorker(c, m, s, d, p, w);
    }
    forall a: nat | a != s ensures RelySched(c, m, CountDown(m, s, d, p, m.fanin[d]), a) {
      CountDownRely(c, m, s, t, p, i, a);
    }
  }

  lemma CountDownCont(c: Config, m: Shared, s: nat, t: nat, p: nat, i: nat)
    requires s < S(c) && Global(c, m) && Pending(c, m, s, t, p, i) && m.fanin[Deps(c, p)[i]] > 0
    ensures var d := Deps(c, p)[i]; var m' := CountDown(m, s, d, p, m.fanin[d]);
      Shape(c, m') && ContInv(c, m', s, ToProc(t, p, i + 1), false)
  {
    CountDownFanin(c, m, s, t, p, i);
    CountDownDone(c, m, s, t, p, i);
  }

  /** Counting down assigns at most the dependent itself, to `s`. */
  lemma CountDownLaws(c: Config, m: Shared, s: nat, t: nat, p: nat, i: nat, d: nat)
    requires Shape(c, m) && d < N(c) && m.fanin[d] > 0 && Shape(c, CountDown(m, s, d, p, m.fanin[d]))
    requires ScanLaw(c, m, s, DecCas(t, p, i, m.fanin[d])) && OwnerLaw(c, m, s, DecCas(t, p, i, m.fanin[d]))
    ensures var m' := CountDown(m, s, d, p, m.fanin[d]);
      var pc' := if m.fanin[d] == 1 then PushTicket(d, ToProc(t, p, i + 1)) else Proc(t, p, i + 1);
      ScanLaw(c, m', s, pc') && OwnerLaw(c, m', s, pc')
  {
  }

  lemma DecCasLocal(c: Config, m: Shared, s: nat, t: nat, p: nat, i: nat)
    requires s < S(c) && Global(c, m) && Pending(c, m, s, t, p, i) && m.fanin[Deps(c, p)[i]] > 0
    ensures var d := Deps(c, p)[i]; var m' := CountDown(m, s, d, p, m.fanin[d]);
      var pc' := if m.fanin[d] == 1 then PushTicket(d, ToProc(t, p, i + 1)) else Proc(t, p, i + 1);
      Shape(c, m') && SchedLocal(c, m', s, pc')
  {
    PendingIsFresh(c, m, s, t, p, i);
    CountDownCont(c, m, s, t, p, i);
  }

  /** The compare-and-swap succeeds. */
  lemma DecCasHit(c: Config, m: Shared, s: nat, t: nat, p: nat, i: nat, seen: nat)
    requires Global(c, m) && SchedInv(c, m, s, DecCas(t, p, i, seen)) && m.fanin[Deps(c, p)[i]] == seen
    ensures var (m', pc') := SchedNext(c, m, s, DecCas(t, p, i, seen)); SchedInv(c, m', s, pc')
  {
    DecCasLocal(c, m, s, t, p, i);
    CountDownLaws(c, m, s, t, p, i, Deps(c, p)[i]);
  }

  lemma DecCasMiss(c: Config, m: Shared, s: nat, t: nat, p: nat, i: nat, seen: nat)
    requires Global(c, m) && SchedInv(c, m, s, DecCas(t, p, i, seen)) && m.fanin[Deps(c, p)[i]] != seen
    ensures var (m', pc') := SchedNext(c, m, s, DecCas(t, p, i, seen)); m' == m && SchedInv(c, m', s, pc')
  {
    LawsKept(c, m, m, s, DecCas(t, p, i, seen), DecRead(t, p, i));
  }

  lemma DecCasNext(c: Config, m: Shared, s: nat, t: nat, p: nat, i: nat, seen: nat)
    requires |m.fanin| == N(c) && i < |Deps(c, p)| && Deps(c, p)[i] < N(c) && m.fanin[Deps(c, p)[i]] == seen > 0
    ensures SchedNext(c, m, s, DecCas(t, p, i, seen)).0 == CountDown(m, s, Deps(c, p)[i], p, seen)
  {
  }

  lemma DecCasOk(c: Config, m: Shared, s: nat, t: nat, p: nat, i: nat, seen: nat)
    requires Global(c, m) && SchedInv(c, m, s, DecCas(t, p, i, seen))
    ensures var (m', pc') := SchedNext(c, m, s, DecCas(t, p, i, seen));
      SchedGuarantee(c, m, m', s) && SchedInv(c, m', s, pc')
  {
    if m.fanin[Deps(c, p)[i]] == seen {
      DecCasHit(c, m, s, t, p, i, seen);
      CountDownGuarantee(c, m, s, t, p, i);
      DecCasNext(c, m, s, t, p, i, seen);
    } else {
      DecCasMiss(c, m, s, t, p, i, seen);
      RelyReflexive(c, m, s);
    }
  }
}
