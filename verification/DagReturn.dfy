/**
 After the verdict every block returns: every fair run, with any number of
 scheduler blocks, ends with all schedulers and all workers out of their loops.
 So the kernel terminates whatever the task table is, and the state it leaves
 behind does not change any more.
 */
module DagReturn {
  import opened TicketRing
  import opened DagModel
  import opened DagInvariant
  import opened DagSteps
  import opened DagTheorems
  import opened DagDataflow
  import opened DagProgress
  import opened DagLiveness
  import opened DagFairRuns
  import opened Arithmetic

  // -------------------------------------------------------------------------
  // Steps left until a block returns
  // -------------------------------------------------------------------------

  /** Cost of one dependent: every other scheduler may have to read the fan-in again. */
  function DepLeft(c: Config): nat { 9 + Times(S(c), 2) }

  function ProcLeft(c: Config): nat { Times(|c.dependents|, DepLeft(c)) }

  function ContLeft(c: Config, k: Cont): nat {
    match k
    case ToScan(i) => 10 + Times(Minus(N(c), i), 8)
    case ToProc(_, p, i) => 4 + Times(Minus(|Deps(c, p)|, i), DepLeft(c))
    case ToLoop => 2
    case ToExit => 0
  }

  /** A claim that was decided on an old head will be tried again. */
  function RetryLeft(m: Shared, head: nat): nat { if head != m.comp.head then 3 else 0 }

  function SchedLeft(c: Config, m: Shared, pc: SchedPc): nat {
    var n := N(c);
    match pc
    case Scan(i) => ContLeft(c, ToScan(i))
    case PushTicket(_, k) => ContLeft(c, k) + 4
    case PushWait(_, _, k) => ContLeft(c, k) + 3
    case PushWrite(_, _, k) => ContLeft(c, k) + 2
    case PushPublish(_, _, k) => ContLeft(c, k) + 1
    case Fail(_, _, k) => ContLeft(c, k) + 1
    case InitAdd => 8
    case Barrier => if m.initCount < S(c) then 7 else 5
    case BarrierErr => if m.initCount < S(c) && m.err.NoError? then 7 else 6
    case CheckEmpty => 4
    case LoopCompleted => 2
    case LoopError => if m.err.NoError? then n + 24 else 1
    case PopHead(late) => if late then n + 13 else n + 20
    case PopTail(late, head) => RetryLeft(m, head) + if late then n + 12 else n + 19
    case PopCas(late, head) => RetryLeft(m, head) + if late then n + 11 else n + 18
    case PopSpin(_, _) => n + 30 + ProcLeft(c)
    case PopSpinErr(late, _) => if late then n + 10 else n + 18
    case PopRead(_, _) => 7 + ProcLeft(c)
    case PopClear(_, _, _) => 6 + ProcLeft(c)
    case ProcStart(_, _) => 5 + ProcLeft(c)
    case Proc(t, p, i) => ContLeft(c, ToProc(t, p, i))
    case DecRead(_, p, i) => 3 + Times(Minus(|Deps(c, p)|, i), DepLeft(c))
    case DecCas(_, p, i, seen) =>
      (if Lost(c, m.fanin, p, i, seen) then 4 else 2) + Times(Minus(|Deps(c, p)|, i), DepLeft(c))
    case ProcDone(_, _) => 3
    case StallTail(again) => if again then n + 9 else n + 17
    case StallFinished(again, _) => if again then n + 8 else n + 16
    case StallClaimed(again, _, _) => if again then n + 7 else n + 15
    case StallCompleted(again, _, _, _) => if again then n + 6 else n + 14
    case Unready(i) => 4 + Minus(n, i)
    case SchedDone => 0
  }

  function WorkerLeft(c: Config, pc: WorkerPc): nat {
    if pc.WSpinErr? then 1 else WorkerWork(c, Empty(0), pc)
  }

  function TicketsLeft(c: Config, m: Shared): nat {
    Times(Minus(N(c), m.comp.head), N(c) + 31 + ProcLeft(c) + Times(S(c), 3)) +
    Times(Minus(N(c), m.ready.head), 11 + InsBound(c.tasks) + WakeCost(c))
  }

  function SchedsLeft(c: Config, m: Shared, ss: seq<SchedPc>): seq<nat> {
    seq(|ss|, i requires 0 <= i < |ss| => SchedLeft(c, m, ss[i]))
  }

  function WorkersLeft(c: Config, ws: seq<WorkerPc>): seq<nat> {
    seq(|ws|, i requires 0 <= i < |ws| => WorkerLeft(c, ws[i]))
  }

  function Left(c: Config, st: State): nat {
    TicketsLeft(c, st.m) + Sum(SchedsLeft(c, st.m, st.scheds)) + Sum(WorkersLeft(c, st.workers))
  }

  // -------------------------------------------------------------------------
  // Steps of a scheduler after the verdict
  // -------------------------------------------------------------------------

  /** No wait of the scheduler can last once the run is over, except at the barrier. */
  ghost predicate SchedFree(c: Config, m: Shared, pc: SchedPc) {
    && Over(c, m)
    && (pc.PushWait? ==> FlagOf(m.ready, c.capacity, pc.t) == 0)
    && (pc.PopSpinErr? ==> m.err.Error?)
    && (pc.PopCas? ==> pc.head < N(c))
    && (pc.DecRead? || pc.DecCas? ==> pc.i < |Deps(c, pc.p)|)
  }

  /** The scheduler waits for the scans of the others. */
  predicate Blocked(c: Config, m: Shared, pc: SchedPc) {
    (pc.Barrier? || pc.BarrierErr?) && m.initCount < S(c) && m.err.NoError?
  }

  /** What a scheduler step may add to the steps left of each other scheduler. */
  function Adds(m: Shared, pc: SchedPc): nat {
    if Claims(m, pc) then 3 else if pc.DecCas? then 2 else 0
  }

  lemma SchedAddsLeft(c: Config, m: Shared, s: nat, pc: SchedPc, q: SchedPc)
    ensures SchedLeft(c, SchedNext(c, m, s, pc).0, q) <= SchedLeft(c, m, q) + Adds(m, pc)
  {
  }

  ghost predicate Nearer(c: Config, m: Shared, s: nat, pc: SchedPc) {
    var (m', pc') := SchedNext(c, m, s, pc);
    TicketsLeft(c, m') + SchedLeft(c, m', pc') + Times(S(c), Adds(m, pc)) < TicketsLeft(c, m) + SchedLeft(c, m, pc)
  }

  lemma ScanNearer(c: Config, m: Shared, s: nat, idx: nat)
    ensures Nearer(c, m, s, Scan(idx))
  {
    NoShare(S(c));
    if idx < N(c) {
      TimesMonotone(Minus(N(c), idx), Minus(N(c), idx + S(c)), 8);
    }
  }

  lemma ProcNearer(c: Config, m: Shared, s: nat, t: nat, p: nat, i: nat)
    ensures Nearer(c, m, s, Proc(t, p, i))
  {
    NoShare(S(c));
    if i < |Deps(c, p)| {
      MinusStep(DepLeft(c), |Deps(c, p)|, i);
    }
  }

  lemma DecReadNearer(c: Config, m: Shared, s: nat, t: nat, p: nat, i: nat)
    requires i < |Deps(c, p)|
    ensures Nearer(c, m, s, DecRead(t, p, i))
  {
    NoShare(S(c));
    MinusStep(DepLeft(c), |Deps(c, p)|, i);
  }

  lemma DecCasNearer(c: Config, m: Shared, s: nat, t: nat, p: nat, i: nat, seen: nat)
    requires i < |Deps(c, p)| && !Lost(c, m.fanin, p, i, seen)
    ensures Nearer(c, m, s, DecCas(t, p, i, seen))
  {
    MinusStep(DepLeft(c), |Deps(c, p)|, i);
    var (m', pc') := SchedNext(c, m, s, DecCas(t, p, i, seen));
    assert TicketsLeft(c, m') == TicketsLeft(c, m);
    assert SchedLeft(c, m', pc') <= 8 + Times(Minus(|Deps(c, p)|, i + 1), DepLeft(c));
  }

  lemma StartLeft(c: Config, p: nat)
    ensures Times(Minus(|Deps(c, p)|, 0), DepLeft(c)) <= ProcLeft(c)
  {
    if |Deps(c, p)| < |c.dependents| {
      TimesMonotone(|c.dependents|, |Deps(c, p)|, DepLeft(c));
    }
  }

  lemma ClaimNearer(c: Config, m: Shared, s: nat, pc: SchedPc)
    requires Claims(m, pc) && m.comp.head < N(c)
    ensures Nearer(c, m, s, pc)
  {
    MinusStep(N(c) + 31 + ProcLeft(c) + Times(S(c), 3), N(c), m.comp.head);
  }

  lemma SearchNearer(c: Config, m: Shared, s: nat, pc: SchedPc)
    requires SchedFree(c, m, pc) && !Claims(m, pc)
    requires pc.PopHead? || pc.PopTail? || pc.PopCas? || pc.PopSpin? || pc.PopSpinErr?
    ensures Nearer(c, m, s, pc)
  {
    NoShare(S(c));
  }

  lemma StallNearer(c: Config, m: Shared, s: nat, pc: SchedPc)
    requires pc.StallTail? || pc.StallFinished? || pc.StallClaimed?
    ensures Nearer(c, m, s, pc)
  {
    NoShare(S(c));
  }

  lemma DecideNearer(c: Config, m: Shared, s: nat, pc: SchedPc)
    requires pc.StallCompleted? || pc.Unready?
    ensures Nearer(c, m, s, pc)
  {
    NoShare(S(c));
  }

  lemma PushNearer(c: Config, m: Shared, s: nat, pc: SchedPc)
    requires SchedFree(c, m, pc) && (AtPush(pc) || pc.Fail?)
    ensures Nearer(c, m, s, pc)
  {
    NoShare(S(c));
  }

  lemma LoopNearer(c: Config, m: Shared, s: nat, pc: SchedPc)
    requires Over(c, m) && !Blocked(c, m, pc)
    requires pc.InitAdd? || pc.Barrier? || pc.BarrierErr? || pc.CheckEmpty? || pc.LoopCompleted? || pc.LoopError?
    ensures Nearer(c, m, s, pc)
  {
    NoShare(S(c));
  }

  lemma StartNearer(c: Config, m: Shared, s: nat, t: nat, p: nat)
    ensures Nearer(c, m, s, ProcStart(t, p))
  {
    NoShare(S(c));
    StartLeft(c, p);
  }

  lemma WorkNearer(c: Config, m: Shared, s: nat, pc: SchedPc)
    requires pc.PopRead? || pc.PopClear? || pc.ProcDone?
    ensures Nearer(c, m, s, pc)
  {
    NoShare(S(c));
  }

  lemma SchedNearer(c: Config, m: Shared, s: nat, pc: SchedPc)
    requires SchedFree(c, m, pc) && !Blocked(c, m, pc) && !pc.SchedDone?
    requires pc.DecCas? ==> !Lost(c, m.fanin, pc.p, pc.i, pc.seen)
    ensures Nearer(c, m, s, pc)
  {
    if Claims(m, pc) {
      ClaimNearer(c, m, s, pc);
    } else if pc.Scan? {
      ScanNearer(c, m, s, pc.idx);
    } else if pc.Proc? {
      ProcNearer(c, m, s, pc.t, pc.p, pc.i);
    } else if pc.DecRead? {
      DecReadNearer(c, m, s, pc.t, pc.p, pc.i);
    } else if pc.DecCas? {
      DecCasNearer(c, m, s, pc.t, pc.p, pc.i, pc.seen);
    } else if pc.PopHead? || pc.PopTail? || pc.PopCas? || pc.PopSpin? || pc.PopSpinErr? {
      SearchNearer(c, m, s, pc);
    } else if pc.StallTail? || pc.StallFinished? || pc.StallClaimed? {
      StallNearer(c, m, s, pc);
    } else if pc.StallCompleted? || pc.Unready? {
      DecideNearer(c, m, s, pc);
    } else if AtPush(pc) || pc.Fail? {
      PushNearer(c, m, s, pc);
    } else if pc.ProcStart? {
      StartNearer(c, m, s, pc.t, pc.p);
    } else if pc.PopRead? || pc.PopClear? || pc.ProcDone? {
      WorkNearer(c, m, s, pc);
    } else {
      LoopNearer(c, m, s, pc);
    }
  }

  lemma NearerLowersLeft(c: Config, st: State, s: nat)
    requires s < |st.scheds| == S(c) && Nearer(c, st.m, s, st.scheds[s])
    ensures Left(c, Step(c, st, Sched(s))) < Left(c, st)
  {
    var pc := st.scheds[s];
    var st' := Step(c, st, Sched(s));
    var xs, ys := SchedsLeft(c, st.m, st.scheds), SchedsLeft(c, st'.m, st'.scheds);
    forall i | 0 <= i < |xs| && i != s ensures ys[i] <= xs[i] + Adds(st.m, pc) {
      SchedAddsLeft(c, st.m, s, pc, st.scheds[i]);
    }
    SumStep(xs, ys, s, Adds(st.m, pc));
  }

  lemma LostNearer(c: Config, m: Shared, s: nat, t: nat, p: nat, i: nat, seen: nat)
    requires Lost(c, m.fanin, p, i, seen)
    ensures SchedNext(c, m, s, DecCas(t, p, i, seen)) == (m, DecRead(t, p, i))
    ensures SchedLeft(c, m, DecRead(t, p, i)) < SchedLeft(c, m, DecCas(t, p, i, seen))
  {
  }

  /** A step that changes nothing but the position of one scheduler, to one nearer to its end. */
  lemma ReadingLowersLeft(c: Config, st: State, s: nat)
    requires s < |st.scheds| && SchedNext(c, st.m, s, st.scheds[s]).0 == st.m
    requires SchedLeft(c, st.m, SchedNext(c, st.m, s, st.scheds[s]).1) < SchedLeft(c, st.m, st.scheds[s])
    ensures Left(c, Step(c, st, Sched(s))) < Left(c, st)
  {
    var st' := Step(c, st, Sched(s));
    NoShare(|st.scheds|);
    SumStep(SchedsLeft(c, st.m, st.scheds), SchedsLeft(c, st'.m, st'.scheds), s, 0);
  }

  lemma BlockedStep(c: Config, m: Shared, s: nat, pc: SchedPc)
    requires Blocked(c, m, pc)
    ensures var (m', pc') := SchedNext(c, m, s, pc);
      m' == m && Blocked(c, m, pc') && SchedLeft(c, m, pc') == SchedLeft(c, m, pc)
  {
  }

  // -------------------------------------------------------------------------
  // Steps of a worker after the verdict
  // -------------------------------------------------------------------------

  ghost predicate WorkerFree(c: Config, m: Shared, pc: WorkerPc) {
    && (pc.WSpinErr? ==> m.err.Error?)
    && (pc.WPushWait? ==> FlagOf(m.comp, c.capacity, pc.ct) == 0)
  }

  lemma DrawNearer(c: Config, m: Shared, w: nat)
    ensures var (m', pc') := WorkerNext(c, m, w, WPop);
      TicketsLeft(c, m') + WorkerLeft(c, pc') < TicketsLeft(c, m) + WorkerLeft(c, WPop)
  {
    if m.ready.head < N(c) {
      MinusStep(11 + InsBound(c.tasks) + WakeCost(c), N(c), m.ready.head);
    }
  }

  lemma CarryNearer(c: Config, m: Shared, w: nat, pc: WorkerPc)
    requires WorkerFree(c, m, pc) && !pc.WDone? && !pc.WPop?
    ensures WorkerLeft(c, WorkerNext(c, m, w, pc).1) < WorkerLeft(c, pc)
  {
    if pc.WDispatch? && pc.v < N(c) {
      InsBoundOk(c.tasks, pc.v);
    }
  }

  lemma WorkerNearer(c: Config, m: Shared, w: nat, pc: WorkerPc)
    requires WorkerFree(c, m, pc) && !pc.WDone?
    ensures var (m', pc') := WorkerNext(c, m, w, pc);
      TicketsLeft(c, m') + WorkerLeft(c, pc') < TicketsLeft(c, m) + WorkerLeft(c, pc)
  {
    if pc.WPop? {
      DrawNearer(c, m, w);
    } else {
      WorkerKeepsHeads(c, m, w, pc);
      CarryNearer(c, m, w, pc);
    }
  }

  lemma WorkerKeepsHeads(c: Config, m: Shared, w: nat, pc: WorkerPc)
    requires !pc.WPop?
    ensures var m' := WorkerNext(c, m, w, pc).0; m'.comp.head == m.comp.head && m'.ready.head == m.ready.head
  {
  }

  lemma WorkerAddsNothing(c: Config, m: Shared, w: nat, pc: WorkerPc, q: SchedPc)
    ensures SchedLeft(c, WorkerNext(c, m, w, pc).0, q) <= SchedLeft(c, m, q)
  {
  }

  lemma WorkerLowersLeft(c: Config, st: State, w: nat)
    requires w < |st.workers| && WorkerFree(c, st.m, st.workers[w]) && !st.workers[w].WDone?
    ensures Left(c, Step(c, st, Worker(w))) < Left(c, st)
  {
    var st' := Step(c, st, Worker(w));
    WorkerNearer(c, st.m, w, st.workers[w]);
    var xs, ys := SchedsLeft(c, st.m, st.scheds), SchedsLeft(c, st'.m, st'.scheds);
    forall i | 0 <= i < |xs| ensures ys[i] <= xs[i] {
      WorkerAddsNothing(c, st.m, w, st.workers[w], st.scheds[i]);
    }
    NoShare(|xs|);
    NoShare(|st.workers|);
    SumGrows(xs, ys, 0);
    SumStep(WorkersLeft(c, st.workers), WorkersLeft(c, st'.workers), w, 0);
  }

  // -------------------------------------------------------------------------
  // No wait lasts
  // -------------------------------------------------------------------------

  /** After a clean finish every task has been counted. */
  lemma AllCounted(c: Config, m: Shared, j: nat)
    requires Global(c, m) && m.completed >= N(c) && j < N(c)
    ensures j in m.h.done
  {
    BoundedSet(m.h.done, N(c));
  }

  lemma SpinnerIsUncounted(c: Config, m: Shared, s: nat, pc: SchedPc)
    requires Global(c, m) && SchedInv(c, m, s, pc) && pc.PopSpinErr?
    ensures pc.t < m.comp.tail && m.comp.vals[pc.t] < N(c) && m.comp.vals[pc.t] !in m.h.done
  {
    assert m.comp.vals[pc.t] in m.h.completes;
  }

  lemma SchedKnows(c: Config, m: Shared, s: nat, pc: SchedPc)
    requires SchedInv(c, m, s, pc)
    ensures pc.PopCas? ==> pc.head < N(c)
    ensures pc.DecRead? || pc.DecCas? ==> pc.i < |Deps(c, pc.p)|
  {
  }

  lemma SchedIsFree(c: Config, m: Shared, s: nat, pc: SchedPc)
    requires Global(c, m) && SchedInv(c, m, s, pc) && Over(c, m)
    ensures SchedFree(c, m, pc)
  {
    NothingToWaitFor(c, m, s, pc);
    SchedKnows(c, m, s, pc);
    if pc.PopSpinErr? && m.err.NoError? {
      SpinnerIsUncounted(c, m, s, pc);
      AllCounted(c, m, m.comp.vals[pc.t]);
      assert false;
    }
  }

  /** After a clean finish every ready ticket has been consumed. */
  lemma AllConsumed(c: Config, m: Shared, t: nat)
    requires Global(c, m) && m.completed >= N(c) && t < N(c)
    ensures t < m.ready.tail && m.ready.phase[t].Consumed?
  {
    SubsetSize(m.h.done, m.h.popped);
    SubsetSize(m.h.done, m.h.published);
    BoundedSet(m.h.published, N(c));
    assert m.ready.vals[t] in m.h.published;
  }

  lemma WorkerIsFree(c: Config, m: Shared, w: nat, pc: WorkerPc)
    requires Global(c, m) && WorkerInv(c, m, w, pc) && Over(c, m)
    ensures WorkerFree(c, m, pc)
  {
    if pc.WPushWait? {
      HoldingSlotIsFree(m.comp, N(c), c.capacity, w, pc.ct, pc.v);
    } else if pc.WSpinErr? && m.err.NoError? {
      AllConsumed(c, m, pc.t);
      assert false;
    }
  }

  predicate Unreturned(st: State, a: Actor) {
    match a
    case Sched(s) => s < |st.scheds| && !st.scheds[s].SchedDone?
    case Worker(w) => w < |st.workers| && !st.workers[w].WDone?
  }

  /** The block has not returned, and its next step brings it closer to that. */
  predicate Leaving(c: Config, st: State, a: Actor) {
    Unreturned(st, a) && (a.Sched? ==> !Blocked(c, st.m, st.scheds[a.s]))
  }

  lemma LeavingSchedStep(c: Config, st: State, s: nat)
    requires Inv(c, st) && Over(c, st.m) && Leaving(c, st, Sched(s))
    ensures Left(c, Step(c, st, Sched(s))) < Left(c, st)
  {
    var pc := st.scheds[s];
    SchedIsFree(c, st.m, s, pc);
    if pc.DecCas? && Lost(c, st.m.fanin, pc.p, pc.i, pc.seen) {
      LostNearer(c, st.m, s, pc.t, pc.p, pc.i, pc.seen);
      ReadingLowersLeft(c, st, s);
    } else {
      SchedNearer(c, st.m, s, pc);
      NearerLowersLeft(c, st, s);
    }
  }

  lemma BlockedSchedStep(c: Config, st: State, s: nat)
    requires s < |st.scheds| && Blocked(c, st.m, st.scheds[s])
    ensures var st' := Step(c, st, Sched(s));
      Left(c, st') == Left(c, st) && forall b :: b != Sched(s) && Leaving(c, st, b) ==> Leaving(c, st', b)
  {
    var st' := Step(c, st, Sched(s));
    BlockedStep(c, st.m, s, st.scheds[s]);
    assert SchedsLeft(c, st'.m, st'.scheds) == SchedsLeft(c, st.m, st.scheds);
  }

  /** A leaving block comes closer to its return; any other block changes nothing that matters. */
  lemma ReturnStep(c: Config, st: State, a: Actor)
    requires Inv(c, st) && Over(c, st.m)
    ensures var st' := Step(c, st, a);
      if Leaving(c, st, a) then Left(c, st') < Left(c, st)
      else Left(c, st') == Left(c, st) && forall b :: b != a && Leaving(c, st, b) ==> Leaving(c, st', b)
  {
    if Leaving(c, st, a) {
      match a {
        case Sched(s) => LeavingSchedStep(c, st, s);
        case Worker(w) =>
          WorkerIsFree(c, st.m, w, st.workers[w]);
          WorkerLowersLeft(c, st, w);
      }
    } else if Unreturned(st, a) {
      BlockedSchedStep(c, st, a.s);
    } else {
      ReturnedStep(c, st, a);
    }
  }

  lemma ReturnedStep(c: Config, st: State, a: Actor)
    requires !Unreturned(st, a)
    ensures Step(c, st, a) == st
  {
  }

  /** Not every block can be waiting at the barrier. */
  lemma SomeoneLeaves(c: Config, st: State, a: Actor) returns (b: Actor)
    requires Inv(c, st) && Unreturned(st, a)
    ensures Leaving(c, st, b)
  {
    b := a;
    if !Leaving(c, st, a) {
      if AllInited(c, st.m.h.inited) {
        SubsetSize(UpTo(S(c)), st.m.h.inited);
        assert false;
      }
      var s :| 0 <= s < S(c) && s !in st.m.h.inited;
      assert SchedInv(c, st.m, s, st.scheds[s]);
      InScanUntilInited(c, st.m, s, st.scheds[s]);
      b := Sched(s);
    }
  }

  // -------------------------------------------------------------------------
  // Fair runs
  // -------------------------------------------------------------------------

  ghost predicate Closing(c: Config, st0: State, st: State, a: Actor) {
    Left(c, st) < Left(c, st0) || (Left(c, st) == Left(c, st0) && Leaving(c, st, a))
  }

  lemma ClosingNext(c: Config, turn: nat -> Actor, run: nat -> State, st0: State, n: nat, a: Actor)
    requires Manned(c) && IsRun(c, turn, run) && Over(c, run(n).m) && Closing(c, st0, run(n), a)
    ensures Closing(c, st0, run(n + 1), a)
    ensures turn(n) == a ==> Left(c, run(n + 1)) < Left(c, st0)
  {
    SoundAt(c, turn, run, n);
    ReturnStep(c, run(n), turn(n));
    assert Follows(c, turn, run, n);
  }

  lemma {:induction false} ClosingAt(
    c: Config, turn: nat -> Actor, run: nat -> State, st0: State, n: nat, k: nat, a: Actor)
    requires Manned(c) && IsRun(c, turn, run) && n <= k && Over(c, run(n).m) && Closing(c, st0, run(n), a)
    ensures Closing(c, st0, run(k), a)
    decreases k
  {
    if n < k {
      ClosingAt(c, turn, run, st0, n, k - 1, a);
      OverStays(c, turn, run, n, k - 1);
      ClosingNext(c, turn, run, st0, k - 1, a);
    }
  }

  /** All blocks have returned. */
  ghost predicate AllReturned(c: Config, st: State) {
    forall a :: Launched(c, a) ==> !Unreturned(st, a)
  }

  lemma CloserToReturn(c: Config, turn: nat -> Actor, run: nat -> State, n: nat) returns (k: nat)
    requires Manned(c) && IsRun(c, turn, run) && Fair(c, turn) && Over(c, run(n).m) && !AllReturned(c, run(n))
    ensures n <= k && Left(c, run(k + 1)) < Left(c, run(n))
  {
    var a :| Launched(c, a) && Unreturned(run(n), a);
    SoundAt(c, turn, run, n);
    var b := SomeoneLeaves(c, run(n), a);
    k := TurnOf(c, turn, n, b);
    ClosingAt(c, turn, run, run(n), n, k, b);
    OverStays(c, turn, run, n, k);
    ClosingNext(c, turn, run, run(n), k, b);
  }

  lemma {:induction false} EventuallyReturned(c: Config, turn: nat -> Actor, run: nat -> State, n: nat) returns (end: nat)
    requires Manned(c) && IsRun(c, turn, run) && Fair(c, turn) && Over(c, run(n).m)
    ensures n <= end && AllReturned(c, run(end))
    decreases Left(c, run(n))
  {
    if AllReturned(c, run(n)) {
      end := n;
    } else {
      var k := CloserToReturn(c, turn, run, n);
      OverStays(c, turn, run, n, k + 1);
      end := EventuallyReturned(c, turn, run, k + 1);
    }
  }

  /** Once all blocks have returned nothing changes any more. */
  lemma {:induction false} Frozen(c: Config, turn: nat -> Actor, run: nat -> State, end: nat, n: nat)
    requires Manned(c) && IsRun(c, turn, run) && AllReturned(c, run(end)) && end <= n
    ensures run(n) == run(end)
    decreases n
  {
    if end < n {
      Frozen(c, turn, run, end, n - 1);
      SoundAt(c, turn, run, n - 1);
      assert Follows(c, turn, run, n - 1);
      assert Launched(c, turn(n - 1)) || !Unreturned(run(n - 1), turn(n - 1));
      ReturnedStep(c, run(n - 1), turn(n - 1));
    }
  }

  /**
   Every fair run terminates, with any number of blocks and for every task table:
   all blocks return, the state stays as it is, and the error word it leaves is
   the verdict on the table.
   */
  lemma FairRunReturns(c: Config, turn: nat -> Actor, run: nat -> State) returns (end: nat)
    requires Manned(c) && IsRun(c, turn, run) && Fair(c, turn)
    ensures AllReturned(c, run(end)) && Verdict(c, run(end).m)
    ensures forall n :: end <= n ==> run(n) == run(end)
  {
    var over := EventuallyOver(c, turn, run, 0);
    var start := FairRunDecides(c, turn, run);
    if start < over {
      start := over;
    }
    OverStays(c, turn, run, over, start);
    end := EventuallyReturned(c, turn, run, start);
    forall n | end <= n ensures run(n) == run(end) {
      Frozen(c, turn, run, end, n);
    }
  }

  /**
   On a well-formed data-flow graph, where the stall detector is exact, every fair
   run returns without an error and with the memory of the sequential evaluation.
   */
  lemma FairRunDelivers(c: Config, turn: nat -> Actor, run: nat -> State, order: seq<nat>) returns (end: nat)
    requires Manned(c) && IsRun(c, turn, run) && Fair(c, turn)
    requires WellFormed(c, order) && Dataflow(c) && ExactStall(c)
    ensures AllReturned(c, run(end)) && run(end).m.err.NoError? && run(end).m.mem == Sequential(c, order, |order|)
  {
    var computed := FairRunComputes(c, turn, run, order);
    end := FairRunReturns(c, turn, run);
    if end < computed {
      assert run(computed) == run(end);
    }
  }
}
