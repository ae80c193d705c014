/**
 With at least one worker block no run hangs silently, whatever the number of
 scheduler blocks: a rank decreases with every step of a helpful block and never
 increases, and as long as the run is not over some block is helpful.  Hence
 every run that gives each block enough turns ends with all tasks completed or
 with a recorded error.
 */
module DagLiveness {
  import opened TicketRing
  import opened DagModel
  import opened DagInvariant
  import opened DagSteps
  import opened DagProgress

  // -------------------------------------------------------------------------
  // Sums
  // -------------------------------------------------------------------------

  function Minus(a: nat, b: nat): nat {
    if a > b then a - b else 0
  }

  function Times(a: nat, b: nat): nat {
    if a == 0 then 0 else Times(a - 1, b) + b
  }

  lemma {:induction false} TimesMonotone(a: nat, a': nat, b: nat)
    requires a' < a
    ensures Times(a', b) + b <= Times(a, b)
    decreases a
  {
    if a' < a - 1 {
      TimesMonotone(a - 1, a', b);
    }
  }

  lemma MinusStep(k: nat, n: nat, i: nat)
    requires i < n
    ensures Times(Minus(n, i), k) == Times(Minus(n, i + 1), k) + k
  {
    assert Minus(n, i) == Minus(n, i + 1) + 1;
  }

  function Sum(xs: seq<nat>): nat {
    if xs == [] then 0 else Sum(xs[..|xs| - 1]) + xs[|xs| - 1]
  }

  /** If no entry grows by more than `d`, the sum grows by at most `d` for each entry. */
  lemma {:induction false} SumGrows(xs: seq<nat>, ys: seq<nat>, d: nat)
    requires |xs| == |ys| && forall i :: 0 <= i < |xs| ==> ys[i] <= xs[i] + d
    ensures Sum(ys) <= Sum(xs) + Times(|xs|, d)
    decreases |xs|
  {
    if xs != [] {
      var n := |xs| - 1;
      SumGrows(xs[..n], ys[..n], d);
      assert ys[n] <= xs[n] + d;
    }
  }

  /** The same, with one entry accounted for separately. */
  lemma {:induction false} SumStep(xs: seq<nat>, ys: seq<nat>, k: nat, d: nat)
    requires |xs| == |ys| && k < |xs| && forall i :: 0 <= i < |xs| && i != k ==> ys[i] <= xs[i] + d
    ensures Sum(ys) + xs[k] <= Sum(xs) + ys[k] + Times(|xs|, d)
    decreases |xs|
  {
    var n := |xs| - 1;
    if k == n {
      SumGrows(xs[..n], ys[..n], d);
    } else {
      SumStep(xs[..n], ys[..n], k, d);
      assert ys[n] <= xs[n] + d;
    }
  }

  // -------------------------------------------------------------------------
  // Work left
  // -------------------------------------------------------------------------

  /** No task has more inputs than this. */
  function InsBound(tasks: seq<Task>): nat {
    if tasks == [] then 0 else InsBound(tasks[..|tasks| - 1]) + |tasks[|tasks| - 1].ins|
  }

  lemma {:induction false} InsBoundOk(tasks: seq<Task>, p: nat)
    requires p < |tasks|
    ensures |tasks[p].ins| <= InsBound(tasks)
    decreases |tasks|
  {
    if p < |tasks| - 1 {
      InsBoundOk(tasks[..|tasks| - 1], p);
    }
  }

  /** Cost of making a completion visible: it may wake every scheduler. */
  function WakeCost(c: Config): nat { Times(S(c), 1) }

  /** Steps that worker position `pc` has left until it draws its next ticket. */
  function WorkerWork(c: Config, ready: Ring, pc: WorkerPc): nat {
    var e := InsBound(c.tasks) + WakeCost(c);
    match pc
    case WDone => 0
    case WPop => 1
    case WFail(_, _) => 2
    case WPublish(_, _) => 2 + WakeCost(c)
    case WPushWrite(_, _) => 3 + WakeCost(c)
    case WPushWait(_, _) => 4 + WakeCost(c)
    case WTicket(_, _) => 5 + WakeCost(c)
    case WStore(_, _, _) => 6 + WakeCost(c)
    case WLoad(_, v, args) => 7 + WakeCost(c) + Minus(|TaskAt(c, v).ins|, |args|)
    case WDispatch(_, _) => 8 + e
    case WClear(_, _) => 9 + e
    case WRead(_) => 10 + e
    case WSpin(t) => 11 + e
    case WSpinErr(t) => 11 + e + if FlagOf(ready, c.capacity, t) == t + 1 then 1 else 0
  }

  /** Cost of publishing a task: it may wake every worker. */
  function PushCost(c: Config): nat { Times(c.workerBlocks, 1) + 1 }

  /** Cost of counting down a fan-in: every other scheduler may have to read it again. */
  function DepCost(c: Config): nat { PushCost(c) + Times(S(c), 2) + 6 }

  function ContWork(c: Config, k: Cont): nat {
    match k
    case ToScan(i) => 7 + Times(Minus(N(c), i), PushCost(c) + 5)
    case ToProc(_, p, i) => 3 + Times(Minus(|Deps(c, p)|, i), DepCost(c))
    case ToLoop => 1
    case ToExit => 0
  }

  function ProcBound(c: Config): nat { Times(|c.dependents|, DepCost(c)) }

  /** The observed fan-in has changed, so that the compare-and-swap will fail. */
  predicate Lost(c: Config, fanin: seq<nat>, p: nat, i: nat, seen: nat) {
    Load(fanin, DepAt(c, p, i)) != seen || seen == 0
  }

  /** Steps that scheduler position `pc` has left until it polls again. */
  function SchedWork(c: Config, m: Shared, pc: SchedPc): nat {
    match pc
    case Scan(i) => ContWork(c, ToScan(i))
    case PushTicket(_, k) => ContWork(c, k) + PushCost(c) + 3
    case PushWait(_, _, k) => ContWork(c, k) + PushCost(c) + 2
    case PushWrite(_, _, k) => ContWork(c, k) + PushCost(c) + 1
    case PushPublish(_, _, k) => ContWork(c, k) + PushCost(c)
    case InitAdd => 6
    case BarrierErr => if m.initCount < S(c) then 5 else 4
    case Barrier => if m.initCount < S(c) then 5 else 3
    case CheckEmpty => 2
    case PopSpin(_, _) => ProcBound(c) + 7
    case PopSpinErr(_, t) => ProcBound(c) + 7 + if FlagOf(m.comp, c.capacity, t) == t + 1 then 1 else 0
    case PopRead(_, _) => ProcBound(c) + 6
    case PopClear(_, _, _) => ProcBound(c) + 5
    case ProcStart(_, _) => ProcBound(c) + 4
    case Proc(t, p, i) => ContWork(c, ToProc(t, p, i))
    case DecRead(_, p, i) => 2 + Times(Minus(|Deps(c, p)|, i), DepCost(c))
    case DecCas(_, p, i, seen) =>
      Times(Minus(|Deps(c, p)|, i), DepCost(c)) + if Lost(c, m.fanin, p, i, seen) then 3 else 1
    case ProcDone(_, _) => 2
    case Fail(_, _, _) => 0
    case SchedDone => 0
    case _ => 1
  }

  /** Each completion not yet claimed and each ready ticket not yet drawn has its full cost left. */
  function TicketWork(c: Config, m: Shared): nat {
    Times(Minus(N(c), m.comp.head), ProcBound(c) + 8) +
    Times(Minus(N(c), m.ready.head), 11 + InsBound(c.tasks) + WakeCost(c))
  }

  function SchedWorks(c: Config, m: Shared, ss: seq<SchedPc>): seq<nat> {
    seq(|ss|, i requires 0 <= i < |ss| => SchedWork(c, m, ss[i]))
  }

  function WorkerWorks(c: Config, ready: Ring, ws: seq<WorkerPc>): seq<nat> {
    seq(|ws|, i requires 0 <= i < |ws| => WorkerWork(c, ready, ws[i]))
  }

  function Work(c: Config, st: State): nat {
    TicketWork(c, st.m) + Sum(SchedWorks(c, st.m, st.scheds)) + Sum(WorkerWorks(c, st.m.ready, st.workers))
  }

  /** A step of scheduler `s` lowers the work if its own drop pays for what it adds to the others. */
  lemma SchedStepWork(c: Config, st: State, s: nat, ds: nat, dw: nat)
    requires s < |st.scheds|
    requires var (m', pc') := SchedNext(c, st.m, s, st.scheds[s]);
      && TicketWork(c, m') + SchedWork(c, m', pc') + Times(|st.scheds|, ds) + Times(|st.workers|, dw) <
         TicketWork(c, st.m) + SchedWork(c, st.m, st.scheds[s])
      && (forall q :: SchedWork(c, m', q) <= SchedWork(c, st.m, q) + ds)
      && (forall q :: WorkerWork(c, m'.ready, q) <= WorkerWork(c, st.m.ready, q) + dw)
    ensures Work(c, Step(c, st, Sched(s))) < Work(c, st)
  {
    var st' := Step(c, st, Sched(s));
    SumStep(SchedWorks(c, st.m, st.scheds), SchedWorks(c, st'.m, st'.scheds), s, ds);
    SumGrows(WorkerWorks(c, st.m.ready, st.workers), WorkerWorks(c, st'.m.ready, st'.workers), dw);
  }

  lemma WorkerStepWork(c: Config, st: State, w: nat, ds: nat)
    requires w < |st.workers|
    requires var (m', pc') := WorkerNext(c, st.m, w, st.workers[w]);
      && TicketWork(c, m') + WorkerWork(c, m'.ready, pc') + Times(|st.scheds|, ds) <
         TicketWork(c, st.m) + WorkerWork(c, st.m.ready, st.workers[w])
      && (forall q :: SchedWork(c, m', q) <= SchedWork(c, st.m, q) + ds)
      && (forall q :: WorkerWork(c, m'.ready, q) <= WorkerWork(c, st.m.ready, q))
    ensures Work(c, Step(c, st, Worker(w))) < Work(c, st)
  {
    var st' := Step(c, st, Worker(w));
    SumGrows(SchedWorks(c, st.m, st.scheds), SchedWorks(c, st'.m, st'.scheds), ds);
    SumStep(WorkerWorks(c, st.m.ready, st.workers), WorkerWorks(c, st'.m.ready, st'.workers), w, 0);
    NoShare(|st.workers|);
  }

  lemma {:induction false} NoShare(n: nat)
    ensures Times(n, 0) == 0
  {
    if n > 0 {
      NoShare(n - 1);
    }
  }

  // -------------------------------------------------------------------------
  // Steps of a scheduler that has work
  // -------------------------------------------------------------------------

  /** What a scheduler step may add to the work of each scheduler and of each worker. */
  function AddsToScheds(pc: SchedPc): nat { if pc.DecCas? then 2 else 0 }

  function AddsToWorkers(pc: SchedPc): nat { if pc.PushPublish? then 1 else 0 }

  /** Only three kinds of steps change what the work of a scheduler depends on. */
  lemma MostStepsAddNothing(c: Config, m: Shared, s: nat, pc: SchedPc)
    requires !pc.InitAdd? && !pc.PopClear? && !pc.DecCas?
    ensures var m' := SchedNext(c, m, s, pc).0;
      m'.initCount == m.initCount && m'.comp.flags == m.comp.flags && m'.fanin == m.fanin
  {
  }

  lemma SchedAddsToSched(c: Config, m: Shared, s: nat, pc: SchedPc, q: SchedPc)
    ensures SchedWork(c, SchedNext(c, m, s, pc).0, q) <= SchedWork(c, m, q) + AddsToScheds(pc)
  {
    if !pc.InitAdd? && !pc.PopClear? && !pc.DecCas? {
      MostStepsAddNothing(c, m, s, pc);
    }
  }

  lemma OnlyPublishWakes(c: Config, m: Shared, s: nat, pc: SchedPc)
    requires !pc.PushPublish?
    ensures SchedNext(c, m, s, pc).0.ready.flags == m.ready.flags
  {
  }

  lemma SchedAddsToWorker(c: Config, m: Shared, s: nat, pc: SchedPc, q: WorkerPc)
    ensures WorkerWork(c, SchedNext(c, m, s, pc).0.ready, q) <= WorkerWork(c, m.ready, q) + AddsToWorkers(pc)
  {
    if !pc.PushPublish? {
      OnlyPublishWakes(c, m, s, pc);
    }
  }

  /** What a scheduler step must pay. */
  function Pays(c: Config, pc: SchedPc): nat {
    1 + Times(S(c), AddsToScheds(pc)) + Times(c.workerBlocks, AddsToWorkers(pc))
  }

  ghost predicate Lowers(c: Config, m: Shared, s: nat, pc: SchedPc) {
    var (m', pc') := SchedNext(c, m, s, pc);
    SchedWork(c, m', pc') + Pays(c, pc) <= SchedWork(c, m, pc)
  }

  lemma ScanLowers(c: Config, m: Shared, s: nat, idx: nat)
    ensures Lowers(c, m, s, Scan(idx))
  {
    NoShare(S(c));
    NoShare(c.workerBlocks);
    if idx < N(c) {
      TimesMonotone(Minus(N(c), idx), Minus(N(c), idx + S(c)), PushCost(c) + 5);
    }
  }

  lemma DecReadLowers(c: Config, m: Shared, s: nat, t: nat, p: nat, i: nat)
    ensures Lowers(c, m, s, DecRead(t, p, i))
  {
    NoShare(S(c));
    NoShare(c.workerBlocks);
  }

  lemma DecCasLowers(c: Config, m: Shared, s: nat, t: nat, p: nat, i: nat, seen: nat)
    requires i < |Deps(c, p)|
    ensures Lost(c, m.fanin, p, i, seen) ==> SchedNext(c, m, s, DecCas(t, p, i, seen)).0 == m
    ensures Lost(c, m.fanin, p, i, seen) ==>
      SchedWork(c, m, SchedNext(c, m, s, DecCas(t, p, i, seen)).1) < SchedWork(c, m, DecCas(t, p, i, seen))
    ensures !Lost(c, m.fanin, p, i, seen) ==> Lowers(c, m, s, DecCas(t, p, i, seen))
  {
    NoShare(c.workerBlocks);
    MinusStep(DepCost(c), |Deps(c, p)|, i);
  }

  lemma ProcLowers(c: Config, m: Shared, s: nat, t: nat, p: nat, i: nat)
    ensures Lowers(c, m, s, Proc(t, p, i))
  {
    NoShare(S(c));
    NoShare(c.workerBlocks);
    if i < |Deps(c, p)| {
      MinusStep(DepCost(c), |Deps(c, p)|, i);
    }
  }

  lemma ProcFits(c: Config, p: nat)
    ensures Times(Minus(|Deps(c, p)|, 0), DepCost(c)) <= ProcBound(c)
  {
    if |Deps(c, p)| < |c.dependents| {
      TimesMonotone(|c.dependents|, |Deps(c, p)|, DepCost(c));
    }
  }

  lemma PushLowers(c: Config, m: Shared, s: nat, pc: SchedPc)
    requires AtPush(pc) && (pc.PushWait? ==> FlagOf(m.ready, c.capacity, pc.t) == 0)
    ensures Lowers(c, m, s, pc)
  {
    NoShare(S(c));
    NoShare(c.workerBlocks);
  }

  lemma OtherLowers(c: Config, m: Shared, s: nat, pc: SchedPc)
    requires !Passive(c, m, pc) && !AtPush(pc) && !pc.Fail?
    requires !(pc.Scan? || pc.Proc? || pc.DecRead? || pc.DecCas?)
    requires m.err.NoError?
    ensures Lowers(c, m, s, pc)
  {
    NoShare(S(c));
    NoShare(c.workerBlocks);
    if pc.ProcStart? {
      ProcFits(c, pc.p);
    }
  }

  lemma NothingToWaitFor(c: Config, m: Shared, s: nat, pc: SchedPc)
    requires SchedInv(c, m, s, pc)
    ensures pc.PushWait? ==> FlagOf(m.ready, c.capacity, pc.t) == 0
    ensures pc.DecCas? ==> pc.i < |Deps(c, pc.p)|
  {
    if pc.PushWait? {
      HoldingSlotIsFree(m.ready, N(c), c.capacity, s, pc.t, pc.j);
    }
  }

  lemma ActiveLowers(c: Config, m: Shared, s: nat, pc: SchedPc)
    requires !Passive(c, m, pc) && !pc.Fail? && m.err.NoError?
    requires pc.PushWait? ==> FlagOf(m.ready, c.capacity, pc.t) == 0
    requires pc.DecCas? ==> pc.i < |Deps(c, pc.p)| && !Lost(c, m.fanin, pc.p, pc.i, pc.seen)
    ensures Lowers(c, m, s, pc)
  {
    if AtPush(pc) {
      PushLowers(c, m, s, pc);
    } else if pc.Scan? {
      ScanLowers(c, m, s, pc.idx);
    } else if pc.Proc? {
      ProcLowers(c, m, s, pc.t, pc.p, pc.i);
    } else if pc.DecRead? {
      DecReadLowers(c, m, s, pc.t, pc.p, pc.i);
    } else if pc.DecCas? {
      DecCasLowers(c, m, s, pc.t, pc.p, pc.i, pc.seen);
    } else {
      OtherLowers(c, m, s, pc);
    }
  }

  lemma ActiveKeepsTickets(c: Config, m: Shared, s: nat, pc: SchedPc)
    requires !pc.PopCas?
    ensures TicketWork(c, SchedNext(c, m, s, pc).0) == TicketWork(c, m)
  {
  }

  /** A step that lowers the scheduler's own work by what it pays lowers the total. */
  lemma LoweringWork(c: Config, st: State, s: nat)
    requires s < |st.scheds| == S(c) && |st.workers| == c.workerBlocks
    requires !st.scheds[s].PopCas? && Lowers(c, st.m, s, st.scheds[s])
    ensures Work(c, Step(c, st, Sched(s))) < Work(c, st)
  {
    var pc := st.scheds[s];
    ActiveKeepsTickets(c, st.m, s, pc);
    forall q ensures SchedWork(c, SchedNext(c, st.m, s, pc).0, q) <= SchedWork(c, st.m, q) + AddsToScheds(pc) {
      SchedAddsToSched(c, st.m, s, pc, q);
    }
    forall q
      ensures WorkerWork(c, SchedNext(c, st.m, s, pc).0.ready, q) <= WorkerWork(c, st.m.ready, q) + AddsToWorkers(pc)
    {
      SchedAddsToWorker(c, st.m, s, pc, q);
    }
    SchedStepWork(c, st, s, AddsToScheds(pc), AddsToWorkers(pc));
  }

  /** A step that changes nothing but the scheduler's position, to one with less work. */
  lemma ReadingWork(c: Config, st: State, s: nat)
    requires s < |st.scheds| && SchedNext(c, st.m, s, st.scheds[s]).0 == st.m
    requires SchedWork(c, st.m, SchedNext(c, st.m, s, st.scheds[s]).1) < SchedWork(c, st.m, st.scheds[s])
    ensures Work(c, Step(c, st, Sched(s))) < Work(c, st)
  {
    NoShare(|st.scheds|);
    NoShare(|st.workers|);
    SchedStepWork(c, st, s, 0, 0);
  }

  lemma ActiveSchedWork(c: Config, st: State, s: nat)
    requires Inv(c, st) && st.m.err.NoError? && s < |st.scheds|
    requires !Passive(c, st.m, st.scheds[s]) && !st.scheds[s].Fail?
    ensures Work(c, Step(c, st, Sched(s))) < Work(c, st)
  {
    var pc := st.scheds[s];
    NothingToWaitFor(c, st.m, s, pc);
    if pc.DecCas? && Lost(c, st.m.fanin, pc.p, pc.i, pc.seen) {
      DecCasLowers(c, st.m, s, pc.t, pc.p, pc.i, pc.seen);
      ReadingWork(c, st, s);
    } else {
      ActiveLowers(c, st.m, s, pc);
      LoweringWork(c, st, s);
    }
  }

  // -------------------------------------------------------------------------
  // Polling
  // -------------------------------------------------------------------------

  /** The run is over: an error is recorded or all tasks are completed. */
  predicate Over(c: Config, m: Shared) {
    m.err.Error? || m.completed >= N(c)
  }

  /** The scheduler wins the completion at the head of the ring. */
  predicate Claims(m: Shared, pc: SchedPc) {
    pc.PopCas? && pc.head == m.comp.head
  }

  /** A passive step only reads, unless it claims a completion or finds an unready task. */
  lemma PassiveStep(c: Config, m: Shared, s: nat, pc: SchedPc)
    requires Passive(c, m, pc) && !Over(c, m) && !Claims(m, pc)
    ensures var (m', pc') := SchedNext(c, m, s, pc);
      && m' == m
      && (pc'.Fail? ==> SchedWork(c, m, pc') < SchedWork(c, m, pc))
      && (!pc'.Fail? ==> Passive(c, m, pc') && SchedWork(c, m, pc') == SchedWork(c, m, pc))
  {
  }

  lemma ClaimLowers(c: Config, m: Shared, s: nat, pc: SchedPc)
    requires Claims(m, pc) && m.comp.head < N(c)
    ensures var (m', pc') := SchedNext(c, m, s, pc);
      TicketWork(c, m') + SchedWork(c, m', pc') < TicketWork(c, m) + SchedWork(c, m, pc)
  {
    MinusStep(ProcBound(c) + 8, N(c), m.comp.head);
  }

  lemma ClaimWork(c: Config, st: State, s: nat)
    requires s < |st.scheds| && Claims(st.m, st.scheds[s]) && st.m.comp.head < N(c)
    ensures Work(c, Step(c, st, Sched(s))) < Work(c, st)
  {
    ClaimLowers(c, st.m, s, st.scheds[s]);
    NoShare(|st.scheds|);
    NoShare(|st.workers|);
    SchedStepWork(c, st, s, 0, 0);
  }

  /** Distance from a polling position to the next step that does something. */
  function PollPos(c: Config, pc: SchedPc): nat {
    match pc
    case LoopCompleted => N(c) + 18
    case LoopError => N(c) + 17
    case PopHead(late) => if late then N(c) + 10 else N(c) + 16
    case PopTail(late, _) => if late then N(c) + 9 else N(c) + 15
    case StallTail(again) => if again then N(c) + 8 else N(c) + 14
    case StallFinished(again, _) => if again then N(c) + 7 else N(c) + 13
    case StallClaimed(again, _, _) => if again then N(c) + 6 else N(c) + 12
    case StallCompleted(again, _, _, _) => if again then N(c) + 5 else N(c) + 11
    case Unready(i) => Minus(N(c), i) + 3
    case _ => 1
  }

  /** The position carries an observation that sends it back to the start of the loop. */
  predicate Stale(c: Config, m: Shared, pc: SchedPc) {
    match pc
    case PopTail(_, head) => head != m.comp.head
    case PopCas(_, head) => head != m.comp.head
    case StallTail(_) => m.comp.head < m.comp.tail
    case StallFinished(_, pub) => m.comp.head < m.comp.tail || pub != m.ready.tail
    case StallClaimed(_, pub, fin) => m.comp.head < m.comp.tail || pub != fin
    case StallCompleted(_, pub, fin, cla) => m.comp.head < m.comp.tail || pub != fin || cla != m.completed
    case Unready(i) => m.comp.head < m.comp.tail || forall j :: i <= j < N(c) ==> Load(m.fanin, j) == 0
    case _ => false
  }

  function PollLeft(c: Config, m: Shared, pc: SchedPc): nat {
    PollPos(c, pc) + if Stale(c, m, pc) then N(c) + 20 else 0
  }

  function PollBound(c: Config): nat { 2 * N(c) + 42 }

  /** The positions of the polling loop. */
  predicate Polls(pc: SchedPc) {
    match pc
    case LoopCompleted => true
    case LoopError => true
    case PopHead(_) => true
    case PopTail(_, _) => true
    case PopCas(_, _) => true
    case StallTail(_) => true
    case StallFinished(_, _) => true
    case StallClaimed(_, _, _) => true
    case StallCompleted(_, _, _, _) => true
    case Unready(_) => true
    case _ => false
  }

  /** What an idle executor looks like to block 0. */
  predicate Still(c: Config, m: Shared) {
    && m.err.NoError? && m.comp.head == m.completed < N(c)
    && m.comp.head <= m.comp.tail == m.ready.tail
    && (m.comp.head == m.comp.tail ==> SomeUnready(c, m))
  }

  lemma PopAdvances(c: Config, m: Shared, pc: SchedPc)
    requires Still(c, m) && (pc.LoopCompleted? || pc.LoopError? || pc.PopHead? || pc.PopTail? || pc.PopCas?)
    requires !Claims(m, pc)
    ensures PollLeft(c, m, SchedNext(c, m, 0, pc).1) < PollLeft(c, m, pc)
  {
  }

  lemma StallAdvances(c: Config, m: Shared, pc: SchedPc)
    requires Still(c, m) && (pc.StallTail? || pc.StallFinished? || pc.StallClaimed? || pc.StallCompleted?)
    ensures PollLeft(c, m, SchedNext(c, m, 0, pc).1) < PollLeft(c, m, pc)
  {
  }

  lemma UnreadyAdvances(c: Config, m: Shared, idx: nat)
    requires Still(c, m) && !SchedNext(c, m, 0, Unready(idx)).1.Fail?
    ensures PollLeft(c, m, SchedNext(c, m, 0, Unready(idx)).1) < PollLeft(c, m, Unready(idx))
  {
  }

  /** When nothing moves, each poll of block 0 brings it closer to an action. */
  lemma PollAdvances(c: Config, m: Shared, pc: SchedPc)
    requires Still(c, m) && Polls(pc) && !Claims(m, pc) && !SchedNext(c, m, 0, pc).1.Fail?
    ensures PollLeft(c, m, SchedNext(c, m, 0, pc).1) < PollLeft(c, m, pc)
  {
    if pc.Unready? {
      UnreadyAdvances(c, m, pc.idx);
    } else if pc.StallTail? || pc.StallFinished? || pc.StallClaimed? || pc.StallCompleted? {
      StallAdvances(c, m, pc);
    } else {
      PopAdvances(c, m, pc);
    }
  }

  // -------------------------------------------------------------------------
  // Steps of a worker
  // -------------------------------------------------------------------------

  /** A worker step never sets a ready flag. */
  lemma WorkerOnlyClears(c: Config, m: Shared, w: nat, pc: WorkerPc, q: WorkerPc)
    ensures WorkerWork(c, WorkerNext(c, m, w, pc).0.ready, q) <= WorkerWork(c, m.ready, q)
  {
  }

  lemma WorkerAddsToSched(c: Config, m: Shared, w: nat, pc: WorkerPc, q: SchedPc)
    ensures SchedWork(c, WorkerNext(c, m, w, pc).0, q) <= SchedWork(c, m, q) + if pc.WPublish? then 1 else 0
  {
  }

  lemma WaitingStep(c: Config, m: Shared, w: nat, pc: WorkerPc)
    requires Waiting(c, m.ready, pc) && m.err.NoError?
    ensures var (m', pc') := WorkerNext(c, m, w, pc);
      m' == m && Waiting(c, m.ready, pc') && WorkerWork(c, m.ready, pc') == WorkerWork(c, m.ready, pc)
  {
  }

  lemma DrawLowers(c: Config, m: Shared, w: nat)
    ensures var (m', pc') := WorkerNext(c, m, w, WPop);
      TicketWork(c, m') + WorkerWork(c, m'.ready, pc') < TicketWork(c, m) + WorkerWork(c, m.ready, WPop)
  {
    if m.ready.head < N(c) {
      MinusStep(11 + InsBound(c.tasks) + WakeCost(c), N(c), m.ready.head);
    }
  }

  lemma OnlyPopDraws(c: Config, m: Shared, w: nat, pc: WorkerPc)
    requires !pc.WPop?
    ensures TicketWork(c, WorkerNext(c, m, w, pc).0) == TicketWork(c, m)
  {
  }

  lemma ActiveWorkerLowers(c: Config, m: Shared, w: nat, pc: WorkerPc)
    requires !pc.WPop? && !Waiting(c, m.ready, pc) && m.err.NoError?
    requires pc.WPushWait? ==> FlagOf(m.comp, c.capacity, pc.ct) == 0
    ensures var (m', pc') := WorkerNext(c, m, w, pc);
      WorkerWork(c, m'.ready, pc') + (if pc.WPublish? then WakeCost(c) else 0) < WorkerWork(c, m.ready, pc)
  {
    if pc.WDispatch? && pc.v < N(c) {
      InsBoundOk(c.tasks, pc.v);
    }
  }

  lemma ActiveWorkerWork(c: Config, st: State, w: nat)
    requires Inv(c, st) && st.m.err.NoError? && w < |st.workers| && !Waiting(c, st.m.ready, st.workers[w])
    ensures Work(c, Step(c, st, Worker(w))) < Work(c, st)
  {
    var pc := st.workers[w];
    if pc.WPop? {
      DrawLowers(c, st.m, w);
    } else {
      assert WorkerInv(c, st.m, w, pc);
      if pc.WPushWait? {
        HoldingSlotIsFree(st.m.comp, N(c), c.capacity, w, pc.ct, pc.v);
      }
      OnlyPopDraws(c, st.m, w, pc);
      ActiveWorkerLowers(c, st.m, w, pc);
    }
    forall q ensures WorkerWork(c, WorkerNext(c, st.m, w, pc).0.ready, q) <= WorkerWork(c, st.m.ready, q) {
      WorkerOnlyClears(c, st.m, w, pc, q);
    }
    forall q
      ensures SchedWork(c, WorkerNext(c, st.m, w, pc).0, q) <= SchedWork(c, st.m, q) + if pc.WPublish? then 1 else 0
    {
      WorkerAddsToSched(c, st.m, w, pc, q);
    }
    NoShare(|st.scheds|);
    WorkerStepWork(c, st, w, if pc.WPublish? then 1 else 0);
  }

  // -------------------------------------------------------------------------
  // The rank
  // -------------------------------------------------------------------------

  function Poll(c: Config, st: State): nat {
    if Idle(c, st) && |st.scheds| > 0 then PollLeft(c, st.m, st.scheds[0]) else PollBound(c) - 1
  }

  /** Work counts first, then the distance of block 0 to its next action. */
  function Rank(c: Config, st: State): nat {
    Times(Work(c, st), PollBound(c)) + Poll(c, st)
  }

  lemma PollSmall(c: Config, st: State)
    ensures Poll(c, st) < PollBound(c)
  {
  }

  lemma LessWorkLessRank(c: Config, st: State, st': State)
    requires Work(c, st') < Work(c, st)
    ensures Rank(c, st') < Rank(c, st)
  {
    PollSmall(c, st');
    TimesMonotone(Work(c, st), Work(c, st'), PollBound(c));
  }

  /** Everything the argument needs to know about a reachable state. */
  ghost predicate Sound(c: Config, st: State) {
    c.workerBlocks >= 1 && Inv(c, st) && Live(c, st)
  }

  /** A block whose next step makes progress. */
  predicate Helpful(c: Config, st: State, a: Actor) {
    match a
    case Sched(s) => s < |st.scheds| && (!Passive(c, st.m, st.scheds[s]) || (s == 0 && Idle(c, st)))
    case Worker(w) => w < |st.workers| && !Waiting(c, st.m.ready, st.workers[w])
  }

  /** The step left everything as it was, up to a position that does as little as the one before. */
  ghost predicate Unmoved(c: Config, st: State, st': State, a: Actor) {
    && Work(c, st') == Work(c, st) && st'.m == st.m && (Idle(c, st') <==> Idle(c, st))
    && (forall b :: b != a && Helpful(c, st, b) ==> Helpful(c, st', b))
  }

  lemma WaitingWorkerUnmoved(c: Config, st: State, w: nat)
    requires !Over(c, st.m) && w < |st.workers| && Waiting(c, st.m.ready, st.workers[w])
    ensures var st' := Step(c, st, Worker(w)); Unmoved(c, st, st', Worker(w)) && st'.scheds == st.scheds
  {
    var st' := Step(c, st, Worker(w));
    WaitingStep(c, st.m, w, st.workers[w]);
    assert WorkerWorks(c, st'.m.ready, st'.workers) == WorkerWorks(c, st.m.ready, st.workers);
    forall u | 0 <= u < |st.workers|
      ensures Waiting(c, st.m.ready, st.workers[u]) <==> Waiting(c, st'.m.ready, st'.workers[u])
    {
    }
  }

  lemma PassiveSchedUnmoved(c: Config, st: State, s: nat)
    requires !Over(c, st.m) && s < |st.scheds| && Passive(c, st.m, st.scheds[s]) && !Claims(st.m, st.scheds[s])
    requires !SchedNext(c, st.m, s, st.scheds[s]).1.Fail?
    ensures var st' := Step(c, st, Sched(s)); Unmoved(c, st, st', Sched(s)) && st'.workers == st.workers
  {
    var st' := Step(c, st, Sched(s));
    PassiveStep(c, st.m, s, st.scheds[s]);
    assert SchedWorks(c, st'.m, st'.scheds) == SchedWorks(c, st.m, st.scheds);
    forall u | 0 <= u < |st.scheds|
      ensures Passive(c, st.m, st.scheds[u]) <==> Passive(c, st'.m, st'.scheds[u])
    {
    }
  }

  lemma ClaimsBelowEnd(c: Config, m: Shared, s: nat, pc: SchedPc)
    requires SchedInv(c, m, s, pc) && Claims(m, pc)
    ensures m.comp.head < N(c)
  {
  }

  /** A passive step that does something lowers the work. */
  lemma PassiveSchedActs(c: Config, st: State, s: nat)
    requires Inv(c, st) && !Over(c, st.m) && s < |st.scheds| && Passive(c, st.m, st.scheds[s])
    requires Claims(st.m, st.scheds[s]) || SchedNext(c, st.m, s, st.scheds[s]).1.Fail?
    ensures Work(c, Step(c, st, Sched(s))) < Work(c, st)
  {
    if Claims(st.m, st.scheds[s]) {
      ClaimsBelowEnd(c, st.m, s, st.scheds[s]);
      ClaimWork(c, st, s);
    } else {
      PassiveStep(c, st.m, s, st.scheds[s]);
      ReadingWork(c, st, s);
    }
  }

  lemma IdleIsStill(c: Config, st: State)
    requires Sound(c, st) && !Over(c, st.m) && Idle(c, st)
    ensures Still(c, st.m)
  {
    IdleIsHandedIn(c, st);
    IdleIsCounted(c, st);
    if st.m.comp.head == st.m.comp.tail {
      IdleHasUnready(c, st);
    }
  }

  lemma IdlePolls(c: Config, st: State)
    requires Sound(c, st) && !Over(c, st.m) && Idle(c, st)
    ensures Polls(st.scheds[0])
  {
    IdleNeverSpins(c, st, 0);
    IdleIsOpen(c, st);
    assert SchedLive(c, st.m, 0, st.scheds[0]) && Passive(c, st.m, st.scheds[0]);
  }

  /** A passive scheduler never raises the rank; block 0 lowers it when nobody can do anything else. */
  lemma PassiveSchedRank(c: Config, st: State, s: nat)
    requires Sound(c, st) && !Over(c, st.m) && s < |st.scheds| && Passive(c, st.m, st.scheds[s])
    ensures var st' := Step(c, st, Sched(s));
      || Rank(c, st') < Rank(c, st)
      || (!Helpful(c, st, Sched(s)) && Rank(c, st') == Rank(c, st) && Unmoved(c, st, st', Sched(s)))
  {
    var st' := Step(c, st, Sched(s));
    if Claims(st.m, st.scheds[s]) || SchedNext(c, st.m, s, st.scheds[s]).1.Fail? {
      PassiveSchedActs(c, st, s);
      LessWorkLessRank(c, st, st');
    } else {
      PassiveSchedUnmoved(c, st, s);
      if s == 0 && Idle(c, st) {
        IdleIsStill(c, st);
        IdlePolls(c, st);
        PollAdvances(c, st.m, st.scheds[0]);
      }
    }
  }

  // -------------------------------------------------------------------------
  // Runs
  // -------------------------------------------------------------------------

  lemma SoundStep(c: Config, st: State, a: Actor)
    requires Sound(c, st)
    ensures Sound(c, Step(c, st, a))
  {
    match a {
      case Sched(s) => if s < |st.scheds| { LiveSchedStep(c, st, s); }
      case Worker(w) => if w < |st.workers| { LiveWorkerStep(c, st, w); }
    }
  }

  lemma OverStep(c: Config, st: State, a: Actor)
    requires Over(c, st.m)
    ensures Over(c, Step(c, st, a).m)
  {
  }

  lemma FailIsOver(c: Config, m: Shared, s: nat, pc: SchedPc)
    requires pc.Fail?
    ensures Over(c, SchedNext(c, m, s, pc).0)
  {
  }

  lemma SchedRankStep(c: Config, st: State, s: nat)
    requires Sound(c, st) && !Over(c, st.m) && s < |st.scheds|
    ensures var st' := Step(c, st, Sched(s));
      || Over(c, st'.m)
      || Rank(c, st') < Rank(c, st)
      || (!Helpful(c, st, Sched(s)) && Rank(c, st') == Rank(c, st) && Unmoved(c, st, st', Sched(s)))
  {
    if st.scheds[s].Fail? {
      FailIsOver(c, st.m, s, st.scheds[s]);
    } else if Passive(c, st.m, st.scheds[s]) {
      PassiveSchedRank(c, st, s);
    } else {
      ActiveSchedWork(c, st, s);
      LessWorkLessRank(c, st, Step(c, st, Sched(s)));
    }
  }

  lemma WorkerRankStep(c: Config, st: State, w: nat)
    requires Sound(c, st) && !Over(c, st.m) && w < |st.workers|
    ensures var st' := Step(c, st, Worker(w));
      || Rank(c, st') < Rank(c, st)
      || (!Helpful(c, st, Worker(w)) && Rank(c, st') == Rank(c, st) && Unmoved(c, st, st', Worker(w)))
  {
    if Waiting(c, st.m.ready, st.workers[w]) {
      WaitingWorkerUnmoved(c, st, w);
    } else {
      ActiveWorkerWork(c, st, w);
      LessWorkLessRank(c, st, Step(c, st, Worker(w)));
    }
  }

  /** Either the rank drops, or nothing changes that another block could notice. */
  lemma RankStep(c: Config, st: State, a: Actor)
    requires Sound(c, st) && !Over(c, st.m)
    ensures var st' := Step(c, st, a);
      || Over(c, st'.m)
      || Rank(c, st') < Rank(c, st)
      || (!Helpful(c, st, a) && Rank(c, st') == Rank(c, st) && Unmoved(c, st, st', a))
  {
    match a {
      case Sched(s) => if s < |st.scheds| { SchedRankStep(c, st, s); }
      case Worker(w) => if w < |st.workers| { WorkerRankStep(c, st, w); }
    }
  }

  /** As long as the run is not over, some block can make progress. */
  lemma SomeoneHelps(c: Config, st: State) returns (a: Actor)
    requires Sound(c, st)
    ensures Helpful(c, st, a)
  {
    if w :| 0 <= w < |st.workers| && !Waiting(c, st.m.ready, st.workers[w]) {
      a := Worker(w);
    } else if s :| 0 <= s < |st.scheds| && !Passive(c, st.m, st.scheds[s]) {
      a := Sched(s);
    } else {
      a := Sched(0);
    }
  }

  /** Seen from `st0`, where `a` was helpful, state `st` has made progress or left `a` helpful. */
  ghost predicate Progress(c: Config, st0: State, st: State, a: Actor) {
    || Over(c, st.m)
    || Rank(c, st) < Rank(c, st0)
    || (Rank(c, st) == Rank(c, st0) && Helpful(c, st, a))
  }

  lemma ProgressKept(c: Config, st0: State, st: State, a: Actor, b: Actor)
    requires Sound(c, st) && Progress(c, st0, st, a)
    ensures Progress(c, st0, Step(c, st, b), a)
    ensures var st' := Step(c, st, b); a == b ==> Over(c, st'.m) || Rank(c, st') < Rank(c, st0)
  {
    if Over(c, st.m) {
      OverStep(c, st, b);
    } else {
      RankStep(c, st, b);
    }
  }
}
