/**
 The stall detector is exact only with one scheduler block.  With two or more,
 a run of the three-task chain 0 -> 1 -> 2 records the stall code 7 although
 the table is well formed: the counters that block 0 compares are read one after
 the other, and block 1 publishes task 1 between two of the reads.
 */
module DagFalseAlarm {
  import opened TicketRing
  import opened DagModel
  import opened DagReach
  import opened DagTheorems
  import opened DagAlarms
  import opened Arithmetic

  function Chain(schedulers: nat, workers: nat): Config {
    Config([Task(1, [], 0, [], 0, 1, 0), Task(1, [], 1, [], 1, 1, 1), Task(1, [], 2, [], 2, 0, 1)],
           [1, 2], [0, 1, 1], [[], [], []], 3, schedulers, workers, {1}, (t: Task, args: seq<Buffer>) => [])
  }

  lemma ChainDeps(schedulers: nat, workers: nat)
    ensures var c := Chain(schedulers, workers); Deps(c, 0) == [1] && Deps(c, 1) == [2] && Deps(c, 2) == []
  {
  }

  lemma ChainPreds(schedulers: nat, workers: nat)
    ensures var c := Chain(schedulers, workers); Preds(c, 0) == {} && Preds(c, 1) == {0} && Preds(c, 2) == {1}
  {
    ChainDeps(schedulers, workers);
    assert UpTo(3) == {0, 1, 2};
  }

  lemma ChainEdges(schedulers: nat, workers: nat)
    ensures LegalEdges(Chain(schedulers, workers))
  {
    ChainDeps(schedulers, workers);
  }

  lemma ChainOrder(schedulers: nat, workers: nat)
    ensures Topological(Chain(schedulers, workers), [0, 1, 2])
  {
    ChainDeps(schedulers, workers);
  }

  lemma ChainFanin(schedulers: nat, workers: nat)
    ensures ExactFanin(Chain(schedulers, workers))
  {
    ChainPreds(schedulers, workers);
    var c := Chain(schedulers, workers);
    forall j | 0 <= j < N(c) ensures c.fanin0[j] == c.tasks[j].initialFanin == |Preds(c, j)| {
      assert j == 0 || j == 1 || j == 2;
    }
  }

  lemma ChainIsWellFormed(schedulers: nat, workers: nat)
    ensures Launchable(Chain(schedulers, workers)) && WellFormed(Chain(schedulers, workers), [0, 1, 2])
  {
    ChainFanin(schedulers, workers);
    ChainEdges(schedulers, workers);
    ChainOrder(schedulers, workers);
  }

  // -------------------------------------------------------------------------
  // Start-up: every block finishes its scan, and task 0 is published
  // -------------------------------------------------------------------------

  /** Nothing has happened yet except that some schedulers have announced themselves. */
  ghost predicate Fresh(c: Config, m: Shared) {
    m.(initCount := 0, h := m.h.(inited := {})) == Init(c).m
  }

  lemma OtherStarts(c: Config, m: Shared, s: nat)
    requires c == Chain(c.schedulerBlocks, c.workerBlocks) && c.schedulerBlocks >= 2 && Fresh(c, m) && s >= 1
    ensures SchedMany(c, m, s, Scan(s), if s < 3 then 3 else 2) == (Announce(m, s), Barrier)
  {
    assert m.fanin == [0, 1, 1];
    if s < 3 {
      assert SchedNext(c, m, s, Scan(s)) == (m, Scan(s + S(c)));
      assert SchedMany(c, m, s, Scan(s), 3) == SchedMany(c, m, s, Scan(s + S(c)), 2);
      assert SchedMany(c, m, s, Scan(s + S(c)), 2) == SchedMany(c, m, s, InitAdd, 1);
    } else {
      assert SchedMany(c, m, s, Scan(s), 2) == SchedMany(c, m, s, InitAdd, 1);
    }
    assert SchedMany(c, m, s, InitAdd, 1) == SchedMany(c, Announce(m, s), s, Barrier, 0);
  }

  /** Schedulers 1 to k-1 have announced themselves, the others wait to start. */
  ghost predicate Started(c: Config, st: State, k: nat) {
    && Fresh(c, st.m) && st.m.initCount == k - 1
    && |st.scheds| == S(c) && st.workers == Init(c).workers
    && (forall s :: 0 <= s < S(c) ==> st.scheds[s] == if 1 <= s < k then Barrier else Scan(s))
  }

  lemma {:induction false} OthersStart(c: Config, k: nat) returns (st: State)
    requires c == Chain(c.schedulerBlocks, c.workerBlocks) && c.schedulerBlocks >= 2 && 1 <= k <= c.schedulerBlocks
    ensures Reaches(c, Init(c), st) && Started(c, st, k)
    decreases k
  {
    if k == 1 {
      st := Init(c);
      ReachesSelf(c, st);
    } else {
      var before := OthersStart(c, k - 1);
      var s := k - 1;
      OtherStarts(c, before.m, s);
      SchedReaches(c, before, s, if s < 3 then 3 else 2);
      st := State(Announce(before.m, s), before.scheds[s := Barrier], before.workers);
      ReachesTransitive(c, Init(c), before, st);
    }
  }

  /** Task 0 is published and every scheduler has announced itself; nothing has run. */
  ghost predicate Opened(c: Config, m: Shared) {
    && m.fanin == [0, 1, 1] && m.initCount == S(c) && m.completed == 0 && m.err == NoError && |m.mem| == 3
    && m.ready.head == 0 && m.ready.tail == 1 && m.ready.flags == [1, 0, 0] && |m.ready.queue| == 3
    && m.ready.queue[0] == 0
    && m.comp.head == 0 && m.comp.tail == 0 && m.comp.flags == [0, 0, 0] && |m.comp.queue| == 3
  }

  lemma PushZero(c: Config, m: Shared) returns (m': Shared)
    requires c == Chain(c.schedulerBlocks, c.workerBlocks) && c.schedulerBlocks >= 2
    requires Fresh(c, m) && m.initCount == S(c) - 1
    ensures SchedMany(c, m, 0, Scan(0), 5) == (m', Scan(S(c)))
    ensures Opened(c, m'.(initCount := S(c))) && m'.initCount == S(c) - 1
  {
    var k := ToScan(S(c));
    var (m1, p1) := SchedNext(c, m, 0, Scan(0));
    assert p1 == PushTicket(0, k);
    var (m2, p2) := SchedNext(c, m1, 0, p1);
    assert p2 == PushWait(0, 0, k);
    var (m3, p3) := SchedNext(c, m2, 0, p2);
    assert p3 == PushWrite(0, 0, k);
    var (m4, p4) := SchedNext(c, m3, 0, p3);
    assert p4 == PushPublish(0, 0, k);
    var (m5, p5) := SchedNext(c, m4, 0, p4);
    m' := m5;
    assert SchedMany(c, m, 0, Scan(0), 5) == SchedMany(c, m1, 0, p1, 4);
    assert SchedMany(c, m1, 0, p1, 4) == SchedMany(c, m2, 0, p2, 3);
    assert SchedMany(c, m2, 0, p2, 3) == SchedMany(c, m3, 0, p3, 2);
    assert SchedMany(c, m3, 0, p3, 2) == SchedMany(c, m4, 0, p4, 1);
    assert SchedMany(c, m4, 0, p4, 1) == SchedMany(c, m5, 0, p5, 0);
  }

  lemma BlockZeroStarts(c: Config, m: Shared) returns (k: nat, m': Shared)
    requires c == Chain(c.schedulerBlocks, c.workerBlocks) && c.schedulerBlocks >= 2
    requires Opened(c, m.(initCount := S(c))) && m.initCount == S(c) - 1
    ensures SchedMany(c, m, 0, Scan(S(c)), k) == (m', Barrier) && Opened(c, m')
  {
    m' := Announce(m, 0);
    assert SchedMany(c, m, 0, InitAdd, 1) == SchedMany(c, m', 0, Barrier, 0);
    if S(c) == 2 {
      k := 3;
      assert SchedMany(c, m, 0, Scan(2), 3) == SchedMany(c, m, 0, Scan(4), 2);
      assert SchedMany(c, m, 0, Scan(4), 2) == SchedMany(c, m, 0, InitAdd, 1);
    } else {
      k := 2;
      assert SchedMany(c, m, 0, Scan(S(c)), 2) == SchedMany(c, m, 0, InitAdd, 1);
    }
  }

  /** Block 0 and block 1 stand at the given positions, worker 0 is about to pop. */
  ghost predicate At(c: Config, st: State, pc0: SchedPc, pc1: SchedPc) {
    && |st.scheds| == S(c) >= 2 && |st.workers| == c.workerBlocks >= 1
    && st.scheds[0] == pc0 && st.scheds[1] == pc1 && st.workers[0] == WPop
  }

  lemma Start(c: Config) returns (st: State)
    requires c == Chain(c.schedulerBlocks, c.workerBlocks) && c.schedulerBlocks >= 2 && c.workerBlocks >= 1
    ensures Reaches(c, Init(c), st) && At(c, st, Barrier, Barrier) && Opened(c, st.m)
  {
    var st1 := OthersStart(c, S(c));
    var m2 := PushZero(c, st1.m);
    SchedReaches(c, st1, 0, 5);
    var st2 := State(m2, st1.scheds[0 := Scan(S(c))], st1.workers);
    ReachesTransitive(c, Init(c), st1, st2);
    var k, m3 := BlockZeroStarts(c, m2);
    SchedReaches(c, st2, 0, k);
    st := State(m3, st2.scheds[0 := Barrier], st2.workers);
    ReachesTransitive(c, Init(c), st2, st);
  }

  // -------------------------------------------------------------------------
  // The race
  // -------------------------------------------------------------------------

  /** Block 0 finds no completion and starts the stall check. */
  lemma BlockZeroPolls(c: Config, m: Shared)
    requires c == Chain(c.schedulerBlocks, c.workerBlocks) && Opened(c, m)
    ensures SchedMany(c, m, 0, Barrier, 6) == (m, StallTail(false))
  {
    OneStep(c, m, 0, Barrier, m, CheckEmpty, 6);
    OneStep(c, m, 0, CheckEmpty, m, LoopCompleted, 5);
    OneStep(c, m, 0, LoopCompleted, m, LoopError, 4);
    OneStep(c, m, 0, LoopError, m, PopHead(false), 3);
    OneStep(c, m, 0, PopHead(false), m, PopTail(false, 0), 2);
    OneStep(c, m, 0, PopTail(false, 0), m, StallTail(false), 1);
  }

  /** Block 1 is about to pop. */
  lemma BlockOnePolls(c: Config, m: Shared)
    requires c == Chain(c.schedulerBlocks, c.workerBlocks) && Opened(c, m)
    ensures SchedMany(c, m, 1, Barrier, 4) == (m, PopHead(false))
  {
    OneStep(c, m, 1, Barrier, m, CheckEmpty, 4);
    OneStep(c, m, 1, CheckEmpty, m, LoopCompleted, 3);
    OneStep(c, m, 1, LoopCompleted, m, LoopError, 2);
    OneStep(c, m, 1, LoopError, m, PopHead(false), 1);
  }

  /** Task 0 has run and its completion is published; `claimed` tells whether block 1 has won it. */
  ghost predicate Handed(c: Config, m: Shared, claimed: nat) {
    && m.fanin == [0, 1, 1] && m.completed == 0 && m.err == NoError
    && m.ready.tail == 1 && m.ready.flags == [0, 0, 0] && |m.ready.queue| == 3
    && m.comp.head == claimed && m.comp.tail == 1 && m.comp.flags == [1, 0, 0] && |m.comp.queue| == 3
    && m.comp.queue[0] == 0
  }

  lemma WorkerRuns(c: Config, m: Shared) returns (m': Shared)
    requires c == Chain(c.schedulerBlocks, c.workerBlocks) && Opened(c, m)
    ensures WorkerMany(c, m, 0, WPop, 11) == (m', WPop) && Handed(c, m', 0)
  {
    var (m1, p1) := WorkerNext(c, m, 0, WPop);
    assert p1 == WSpin(0);
    assert WorkerNext(c, m1, 0, p1) == (m1, WRead(0));
    assert WorkerNext(c, m1, 0, WRead(0)) == (m1, WClear(0, 0));
    var m4 := Consume(c, m1, 0, 0);
    assert WorkerNext(c, m4, 0, WDispatch(0, 0)) == (m4, WLoad(0, 0, []));
    assert WorkerNext(c, m4, 0, WLoad(0, 0, [])) == (m4, WStore(0, 0, []));
    var m7 := StoreOutput(c, m4, 0, []);
    var m8 := TakeCompletionTicket(m7, 0, 0);
    assert WorkerNext(c, m8, 0, WPushWait(0, 0)) == (m8, WPushWrite(0, 0));
    var m10 := m8.(comp := Write(m8.comp, 3, 0, 0));
    m' := m10.(comp := Publish(m10.comp, 3, 0));
    assert WorkerMany(c, m, 0, WPop, 11) == WorkerMany(c, m1, 0, WSpin(0), 10);
    assert WorkerMany(c, m1, 0, WSpin(0), 10) == WorkerMany(c, m1, 0, WRead(0), 9);
    assert WorkerMany(c, m1, 0, WRead(0), 9) == WorkerMany(c, m1, 0, WClear(0, 0), 8);
    assert WorkerMany(c, m1, 0, WClear(0, 0), 8) == WorkerMany(c, m4, 0, WDispatch(0, 0), 7);
    assert WorkerMany(c, m4, 0, WDispatch(0, 0), 7) == WorkerMany(c, m4, 0, WLoad(0, 0, []), 6);
    assert WorkerMany(c, m4, 0, WLoad(0, 0, []), 6) == WorkerMany(c, m4, 0, WStore(0, 0, []), 5);
    assert WorkerMany(c, m4, 0, WStore(0, 0, []), 5) == WorkerMany(c, m7, 0, WTicket(0, 0), 4);
    assert WorkerMany(c, m7, 0, WTicket(0, 0), 4) == WorkerMany(c, m8, 0, WPushWait(0, 0), 3);
    assert WorkerMany(c, m8, 0, WPushWait(0, 0), 3) == WorkerMany(c, m8, 0, WPushWrite(0, 0), 2);
    assert WorkerMany(c, m8, 0, WPushWrite(0, 0), 2) == WorkerMany(c, m10, 0, WPublish(0, 0), 1);
    assert WorkerMany(c, m10, 0, WPublish(0, 0), 1) == WorkerMany(c, m', 0, WPop, 0);
  }

  /** The first comparison of block 0 passes: published 1, finished 1, claimed 0, completed 0. */
  lemma FirstCheckPasses(c: Config, m: Shared)
    requires c == Chain(c.schedulerBlocks, c.workerBlocks) && Handed(c, m, 0)
    ensures SchedMany(c, m, 0, StallTail(false), 4) == (m, PopHead(true))
  {
    assert SchedMany(c, m, 0, StallTail(false), 4) == SchedMany(c, m, 0, StallFinished(false, 1), 3);
    assert SchedMany(c, m, 0, StallFinished(false, 1), 3) == SchedMany(c, m, 0, StallClaimed(false, 1, 1), 2);
    assert SchedMany(c, m, 0, StallClaimed(false, 1, 1), 2) == SchedMany(c, m, 0, StallCompleted(false, 1, 1, 0), 1);
    assert SchedMany(c, m, 0, StallCompleted(false, 1, 1, 0), 1) == SchedMany(c, m, 0, PopHead(true), 0);
  }

  lemma BlockOneClaims(c: Config, m: Shared) returns (m': Shared)
    requires c == Chain(c.schedulerBlocks, c.workerBlocks) && Handed(c, m, 0)
    ensures SchedMany(c, m, 1, PopHead(false), 3) == (m', PopSpin(false, 0)) && Handed(c, m', 1)
  {
    m' := Claim(m, 1);
    assert SchedMany(c, m, 1, PopHead(false), 3) == SchedMany(c, m, 1, PopTail(false, 0), 2);
    assert SchedMany(c, m, 1, PopTail(false, 0), 2) == SchedMany(c, m, 1, PopCas(false, 0), 1);
    assert SchedMany(c, m, 1, PopCas(false, 0), 1) == SchedMany(c, m', 1, PopSpin(false, 0), 0);
  }

  /** The late pop of block 0 misses, and it reads published 1, finished 1 and claimed 1. */
  lemma SecondCheckReads(c: Config, m: Shared)
    requires c == Chain(c.schedulerBlocks, c.workerBlocks) && Handed(c, m, 1)
    ensures SchedMany(c, m, 0, PopHead(true), 5) == (m, StallCompleted(true, 1, 1, 1))
  {
    assert SchedMany(c, m, 0, PopHead(true), 5) == SchedMany(c, m, 0, PopTail(true, 1), 4);
    assert SchedMany(c, m, 0, PopTail(true, 1), 4) == SchedMany(c, m, 0, StallTail(true), 3);
    assert SchedMany(c, m, 0, StallTail(true), 3) == SchedMany(c, m, 0, StallFinished(true, 1), 2);
    assert SchedMany(c, m, 0, StallFinished(true, 1), 2) == SchedMany(c, m, 0, StallClaimed(true, 1, 1), 1);
    assert SchedMany(c, m, 0, StallClaimed(true, 1, 1), 1) == SchedMany(c, m, 0, StallCompleted(true, 1, 1, 1), 0);
  }

  /** Block 1 has counted task 0 and has published task 1. */
  ghost predicate Moved(m: Shared) {
    m.fanin == [0, 0, 1] && m.completed == 1 && m.err == NoError
  }

  lemma ProcFacts(c: Config, m: Shared)
    requires c == Chain(c.schedulerBlocks, c.workerBlocks)
    ensures SchedNext(c, m, 1, ProcStart(0, 0)) == (m, Proc(0, 0, 0))
    ensures SchedNext(c, m, 1, Proc(0, 0, 0)) == (m, DecRead(0, 0, 0))
    ensures SchedNext(c, m, 1, Proc(0, 0, 1)) == (m, ProcDone(0, 0))
    ensures m.fanin == [0, 1, 1] ==> SchedNext(c, m, 1, DecRead(0, 0, 0)) == (m, DecCas(0, 0, 0, 1))
  {
    ChainDeps(c.schedulerBlocks, c.workerBlocks);
  }

  lemma PopFacts(c: Config, m: Shared)
    requires c == Chain(c.schedulerBlocks, c.workerBlocks) && Handed(c, m, 1)
    ensures SchedNext(c, m, 1, PopSpin(false, 0)) == (m, PopRead(false, 0))
    ensures SchedNext(c, m, 1, PopRead(false, 0)) == (m, PopClear(false, 0, 0))
    ensures SchedNext(c, m, 1, PopClear(false, 0, 0)) == (m.(comp := Clear(m.comp, 3, 0)), ProcStart(0, 0))
  {
  }

  /** Block 1 takes the completion of task 0 and is about to count down task 1. */
  lemma BlockOneTakes(c: Config, m: Shared) returns (m1: Shared)
    requires c == Chain(c.schedulerBlocks, c.workerBlocks) && Handed(c, m, 1)
    ensures SchedMany(c, m, 1, PopSpin(false, 0), 13) == SchedMany(c, m1, 1, DecCas(0, 0, 0, 1), 7)
    ensures m1 == m.(comp := Clear(m.comp, 3, 0))
  {
    m1 := m.(comp := Clear(m.comp, 3, 0));
    PopFacts(c, m);
    ProcFacts(c, m1);
    OneStep(c, m, 1, PopSpin(false, 0), m, PopRead(false, 0), 13);
    OneStep(c, m, 1, PopRead(false, 0), m, PopClear(false, 0, 0), 12);
    OneStep(c, m, 1, PopClear(false, 0, 0), m1, ProcStart(0, 0), 11);
    OneStep(c, m1, 1, ProcStart(0, 0), m1, Proc(0, 0, 0), 10);
    OneStep(c, m1, 1, Proc(0, 0, 0), m1, DecRead(0, 0, 0), 9);
    OneStep(c, m1, 1, DecRead(0, 0, 0), m1, DecCas(0, 0, 0, 1), 8);
  }

  /** It counts down and publishes task 1. */
  lemma BlockOnePublishes(c: Config, m1: Shared) returns (m5: Shared)
    requires c == Chain(c.schedulerBlocks, c.workerBlocks)
    requires m1.fanin == [0, 1, 1] && m1.ready.tail == 1 && m1.ready.flags == [0, 0, 0] && |m1.ready.queue| == 3
    ensures SchedMany(c, m1, 1, DecCas(0, 0, 0, 1), 7) == SchedMany(c, m5, 1, Proc(0, 0, 1), 2)
    ensures m5.fanin == [0, 0, 1] && m5.completed == m1.completed && m5.err == m1.err
  {
    ChainDeps(c.schedulerBlocks, c.workerBlocks);
    var k := ToProc(0, 0, 1);
    var m2 := CountDown(m1, 1, 1, 0, 1);
    assert SchedNext(c, m1, 1, DecCas(0, 0, 0, 1)) == (m2, PushTicket(1, k));
    var m3 := TakeTicket(m2, 1, 1);
    assert SchedNext(c, m3, 1, PushWait(1, 1, k)) == (m3, PushWrite(1, 1, k));
    var m4 := m3.(ready := Write(m3.ready, 3, 1, 1));
    m5 := m4.(ready := Publish(m4.ready, 3, 1));
    assert SchedMany(c, m1, 1, DecCas(0, 0, 0, 1), 7) == SchedMany(c, m2, 1, PushTicket(1, k), 6);
    assert SchedMany(c, m2, 1, PushTicket(1, k), 6) == SchedMany(c, m3, 1, PushWait(1, 1, k), 5);
    assert SchedMany(c, m3, 1, PushWait(1, 1, k), 5) == SchedMany(c, m3, 1, PushWrite(1, 1, k), 4);
    assert SchedMany(c, m3, 1, PushWrite(1, 1, k), 4) == SchedMany(c, m4, 1, PushPublish(1, 1, k), 3);
    assert SchedMany(c, m4, 1, PushPublish(1, 1, k), 3) == SchedMany(c, m5, 1, Proc(0, 0, 1), 2);
  }

  lemma BlockOneRetires(c: Config, m: Shared)
    requires SchedNext(c, m, 1, Proc(0, 0, 1)) == (m, ProcDone(0, 0))
    ensures SchedMany(c, m, 1, Proc(0, 0, 1), 2) == (Retire(m, 0), LoopCompleted)
  {
    OneStep(c, m, 1, Proc(0, 0, 1), m, ProcDone(0, 0), 2);
    OneStep(c, m, 1, ProcDone(0, 0), Retire(m, 0), LoopCompleted, 1);
  }

  lemma BlockOneProcesses(c: Config, m: Shared) returns (m': Shared)
    requires c == Chain(c.schedulerBlocks, c.workerBlocks) && Handed(c, m, 1)
    ensures SchedMany(c, m, 1, PopSpin(false, 0), 13) == (m', LoopCompleted) && Moved(m')
  {
    var m1 := BlockOneTakes(c, m);
    var m5 := BlockOnePublishes(c, m1);
    ProcFacts(c, m5);
    BlockOneRetires(c, m5);
    m' := Retire(m5, 0);
  }

  lemma StallFacts(c: Config, m: Shared)
    requires N(c) == 3 && Moved(m)
    ensures SchedNext(c, m, 0, StallCompleted(true, 1, 1, 1)) == (m, Unready(0))
    ensures SchedNext(c, m, 0, Unready(0)) == (m, Unready(1))
    ensures SchedNext(c, m, 0, Unready(1)) == (m, Unready(2))
    ensures SchedNext(c, m, 0, Unready(2)) == (m, Fail(7, 2, ToExit))
    ensures SchedNext(c, m, 0, Fail(7, 2, ToExit)) == (RecordError(m, 7, 2), SchedDone)
  {
  }

  /** Block 0 reads completed 1, believes in a stall, and reports task 2. */
  lemma FalseStall(c: Config, m: Shared) returns (m': Shared)
    requires c == Chain(c.schedulerBlocks, c.workerBlocks) && Moved(m)
    ensures SchedMany(c, m, 0, StallCompleted(true, 1, 1, 1), 5) == (m', SchedDone) && m'.err == Error(7, 2)
  {
    m' := RecordError(m, 7, 2);
    StallFacts(c, m);
    OneStep(c, m, 0, StallCompleted(true, 1, 1, 1), m, Unready(0), 5);
    OneStep(c, m, 0, Unready(0), m, Unready(1), 4);
    OneStep(c, m, 0, Unready(1), m, Unready(2), 3);
    OneStep(c, m, 0, Unready(2), m, Fail(7, 2, ToExit), 2);
    OneStep(c, m, 0, Fail(7, 2, ToExit), m', SchedDone, 1);
  }

  lemma UntilTaskZeroRan(c: Config) returns (st: State)
    requires c == Chain(c.schedulerBlocks, c.workerBlocks) && c.schedulerBlocks >= 2 && c.workerBlocks >= 1
    ensures Reaches(c, Init(c), st) && At(c, st, StallTail(false), PopHead(false)) && Handed(c, st.m, 0)
  {
    var st1 := Start(c);
    BlockZeroPolls(c, st1.m);
    BlockOnePolls(c, st1.m);
    var st2 := Advance(c, st1, 0, 6, st1.m, StallTail(false));
    var st3 := Advance(c, st2, 1, 4, st1.m, PopHead(false));
    var m4 := WorkerRuns(c, st1.m);
    WorkerReaches(c, st3, 0, 11);
    st := State(m4, st3.scheds, st3.workers[0 := WPop]);
    ReachesTransitive(c, Init(c), st3, st);
  }

  /** With two or more scheduler blocks the well-formed chain can end with the stall error. */
  lemma ChainCanStall(schedulers: nat, workers: nat) returns (schedule: seq<Actor>)
    requires schedulers >= 2 && workers >= 1
    ensures Run(Chain(schedulers, workers), Init(Chain(schedulers, workers)), schedule).m.err == Error(7, 2)
  {
    var c := Chain(schedulers, workers);
    var st := ReachesStall(c);
    schedule :| Run(c, Init(c), schedule) == st;
  }

  lemma ReachesStall(c: Config) returns (st6: State)
    requires c == Chain(c.schedulerBlocks, c.workerBlocks) && c.schedulerBlocks >= 2 && c.workerBlocks >= 1
    ensures Reaches(c, Init(c), st6) && st6.m.err == Error(7, 2)
  {
    var st1 := UntilTaskZeroRan(c);
    FirstCheckPasses(c, st1.m);
    var st2 := Advance(c, st1, 0, 4, st1.m, PopHead(true));
    var m3 := BlockOneClaims(c, st1.m);
    var st3 := Advance(c, st2, 1, 3, m3, PopSpin(false, 0));
    SecondCheckReads(c, m3);
    var st4 := Advance(c, st3, 0, 5, m3, StallCompleted(true, 1, 1, 1));
    var m5 := BlockOneProcesses(c, m3);
    var st5 := Advance(c, st4, 1, 13, m5, LoopCompleted);
    var m6 := FalseStall(c, m5);
    st6 := Advance(c, st5, 0, 5, m6, SchedDone);
  }

  /** No run on a well-formed table launched with these block counts records an error. */
  ghost predicate NeverAlarms(schedulers: nat, workers: nat) {
    forall c: Config, order: seq<nat>, schedule: seq<Actor> ::
      c.schedulerBlocks == schedulers && c.workerBlocks == workers && Launchable(c) && WellFormed(c, order) ==>
        Run(c, Init(c), schedule).m.err.NoError?
  }

  /** The executor is free of false alarms exactly when it is launched with one scheduler block. */
  lemma NoFalseAlarmIffOneScheduler(schedulers: nat, workers: nat)
    requires workers >= 1
    ensures NeverAlarms(schedulers, workers) <==> schedulers <= 1
  {
    if schedulers <= 1 {
      forall c: Config, order: seq<nat>, schedule: seq<Actor> |
        c.schedulerBlocks == schedulers && c.workerBlocks == workers && Launchable(c) && WellFormed(c, order)
        ensures Run(c, Init(c), schedule).m.err.NoError?
      {
        NoFalseAlarm(c, schedule, order);
      }
    } else {
      var schedule := ChainCanStall(schedulers, workers);
      ChainIsWellFormed(schedulers, workers);
      assert !Run(Chain(schedulers, workers), Init(Chain(schedulers, workers)), schedule).m.err.NoError?;
    }
  }
}
