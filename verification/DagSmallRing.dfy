/**
 What the executor does when the ring has fewer slots than there are tasks.  On
 `n` independent tasks with `1 <= cap < n` slots there is a run that counts `n`
 completions without an error although one task is retired twice and task 0
 never: two workers pass the wait on one completion slot.  Task 0 lists itself
 as a dependent, which nobody notices.  Hence the exact condition for the
 guarantees of a clean finish is a slot for each task.
 */
module DagSmallRing {
  import opened TicketRing
  import opened DagModel
  import opened DagInvariant
  import opened DagSteps
  import opened DagTheorems
  import opened DagEvents
  import opened DagReach
  import opened Arithmetic

  function TaskOf(i: nat): Task {
    Task(1, [], 0, [], 0, if i == 0 then 1 else 0, 0)
  }

  /** Independent tasks, one worker for each, and one scheduler. */
  function Table(n: nat, cap: nat): Config {
    Config(seq(n, (i: nat) => TaskOf(i)), [0], seq(n, _ => 0), [[]], cap, 1, n, {1},
           (t: Task, args: seq<Buffer>) => [])
  }

  /** What the run needs to know about the launch. */
  ghost predicate Small(c: Config, n: nat, cap: nat) {
    && 1 <= cap < n && N(c) == n && S(c) == 1 && c.capacity == cap && c.workerBlocks == n
    && c.dependents == [0] && c.registered == {1}
    && |c.fanin0| == n && (forall i :: 0 <= i < n ==> c.fanin0[i] == 0)
    && (forall i :: 0 <= i < n ==> c.tasks[i] == TaskOf(i))
  }

  lemma TableIsSmall(n: nat, cap: nat)
    requires 1 <= cap < n
    ensures Small(Table(n, cap), n, cap)
  {
  }

  /** Task 0 lists itself. */
  lemma TableIsBroken(c: Config, n: nat, cap: nat)
    requires Small(c, n, cap)
    ensures !LegalEdges(c)
  {
    assert c.tasks[0] == TaskOf(0);
    var deps := Deps(c, 0);
    assert deps == [0] && Deps(c, 0)[0] == 0;
  }

  lemma NoDependents(c: Config, n: nat, cap: nat, v: nat)
    requires Small(c, n, cap) && 0 < v < n
    ensures InBounds(c, v) && Deps(c, v) == [] && TaskAt(c, v).ins == [] && TaskAt(c, v).funcId in c.registered
  {
    assert c.tasks[v] == TaskOf(v);
  }

  lemma Runnable(c: Config, n: nat, cap: nat, v: nat)
    requires Small(c, n, cap) && v < n
    ensures TaskAt(c, v) == TaskOf(v) && c.tasks[v].initialFanin == 0
  {
    assert c.tasks[v] == TaskOf(v);
  }

  lemma SlotInRing(cap: nat, t: nat)
    requires cap > 0
    ensures Slot(cap, t) < cap && (t < cap ==> Slot(cap, t) == t) && Slot(cap, cap) == 0
  {
  }

  // -------------------------------------------------------------------------
  // Walks of one block
  // -------------------------------------------------------------------------

  ghost predicate Sized(r: Ring, cap: nat) {
    |r.flags| == |r.queue| == cap
  }

  ghost predicate AllClear(r: Ring, cap: nat) {
    Sized(r, cap) && forall k :: 0 <= k < cap ==> r.flags[k] == 0
  }

  /** Only the ready ring, the buffers and the history of pushes and pops differ. */
  ghost predicate SameButReady(m: Shared, m': Shared) {
    && m'.fanin == m.fanin && m'.comp == m.comp && m'.completed == m.completed && m'.initCount == m.initCount
    && m'.err == m.err && m'.h.done == m.h.done
  }

  /** Only the completion ring, the count and the history differ. */
  ghost predicate SameButComp(m: Shared, m': Shared) {
    m'.fanin == m.fanin && m'.ready == m.ready && m'.initCount == m.initCount && m'.err == m.err
  }

  /** The scheduler publishes source `j` during its scan. */
  lemma SchedPushes(c: Config, n: nat, cap: nat, m: Shared, j: nat) returns (m': Shared)
    requires Small(c, n, cap) && j < n && |m.fanin| == n && m.fanin[j] == 0
    requires AllClear(m.ready, cap) && m.ready.tail == j
    ensures SchedMany(c, m, 0, Scan(j), 5) == (m', Scan(j + 1)) && SameButReady(m, m')
    ensures m'.ready.head == m.ready.head && m'.ready.tail == j + 1 && Sized(m'.ready, cap)
    ensures var s := Slot(cap, j); s < cap && m'.ready.flags == m.ready.flags[s := j + 1] && m'.ready.queue[s] == j
  {
    Runnable(c, n, cap, j);
    SlotInRing(cap, j);
    var k := ToScan(j + 1);
    var m1 := m.(h := m.h.(owner := Store(m.h.owner, j, 0)));
    var m2 := TakeTicket(m1, 0, j);
    var m3 := m2.(ready := Write(m2.ready, cap, j, j));
    m' := m3.(ready := Publish(m3.ready, cap, j));
    OneStep(c, m, 0, Scan(j), m1, PushTicket(j, k), 5);
    OneStep(c, m1, 0, PushTicket(j, k), m2, PushWait(j, j, k), 4);
    OneStep(c, m2, 0, PushWait(j, j, k), m2, PushWrite(j, j, k), 3);
    OneStep(c, m2, 0, PushWrite(j, j, k), m3, PushPublish(j, j, k), 2);
    OneStep(c, m3, 0, PushPublish(j, j, k), m', Scan(j + 1), 1);
  }

  /** Worker `j` pops task `j` and runs its body. */
  lemma WorkerTakes(c: Config, n: nat, cap: nat, m: Shared, j: nat) returns (m': Shared)
    requires Small(c, n, cap) && j < n && Sized(m.ready, cap) && m.ready.head == j && Slot(cap, j) < cap
    requires m.ready.flags[Slot(cap, j)] == j + 1 && m.ready.queue[Slot(cap, j)] == j
    ensures WorkerMany(c, m, j, WPop, 7) == (m', WTicket(j, j)) && SameButReady(m, m')
    ensures m'.ready.head == j + 1 && m'.ready.tail == m.ready.tail && Sized(m'.ready, cap)
    ensures m'.ready.flags == m.ready.flags[Slot(cap, j) := 0]
  {
    Runnable(c, n, cap, j);
    var m1 := m.(ready := DrawPop(m.ready, j));
    var m2 := Consume(c, m1, j, j);
    m' := StoreOutput(c, m2, j, []);
    OneWorkerStep(c, m, j, WPop, m1, WSpin(j), 7);
    OneWorkerStep(c, m1, j, WSpin(j), m1, WRead(j), 6);
    OneWorkerStep(c, m1, j, WRead(j), m1, WClear(j, j), 5);
    OneWorkerStep(c, m1, j, WClear(j, j), m2, WDispatch(j, j), 4);
    OneWorkerStep(c, m2, j, WDispatch(j, j), m2, WLoad(j, j, []), 3);
    OneWorkerStep(c, m2, j, WLoad(j, j, []), m2, WStore(j, j, []), 2);
    OneWorkerStep(c, m2, j, WStore(j, j, []), m', WTicket(j, j), 1);
  }

  /** Worker `i` draws the next completion ticket and finds its slot free. */
  lemma WorkerDrawsTicket(c: Config, cap: nat, m: Shared, i: nat, t: nat) returns (m': Shared)
    requires c.capacity == cap > 0 && Sized(m.comp, cap) && m.comp.tail == t && Slot(cap, t) < cap
    requires m.comp.flags[Slot(cap, t)] == 0
    ensures WorkerMany(c, m, i, WTicket(i, i), 2) == (m', WPushWrite(i, t))
    ensures SameButComp(m, m') && m'.completed == m.completed && m'.h.done == m.h.done
    ensures m'.comp.head == m.comp.head && m'.comp.tail == t + 1
    ensures m'.comp.flags == m.comp.flags && m'.comp.queue == m.comp.queue
  {
    m' := TakeCompletionTicket(m, i, i);
    OneWorkerStep(c, m, i, WTicket(i, i), m', WPushWait(i, t), 2);
    OneWorkerStep(c, m', i, WPushWait(i, t), m', WPushWrite(i, t), 1);
  }

  /** Worker `i` writes its task into the slot of ticket `t`. */
  lemma WorkerWrites(c: Config, cap: nat, m: Shared, i: nat, t: nat) returns (m': Shared)
    requires c.capacity == cap > 0 && Sized(m.comp, cap) && Slot(cap, t) < cap
    ensures WorkerMany(c, m, i, WPushWrite(i, t), 1) == (m', WPublish(i, t))
    ensures SameButComp(m, m') && m'.completed == m.completed && m'.h.done == m.h.done
    ensures m'.comp.head == m.comp.head && m'.comp.tail == m.comp.tail
    ensures m'.comp.flags == m.comp.flags && m'.comp.queue == m.comp.queue[Slot(cap, t) := i]
  {
    m' := m.(comp := Write(m.comp, cap, t, i));
    OneWorkerStep(c, m, i, WPushWrite(i, t), m', WPublish(i, t), 1);
  }

  /** Worker `i` raises the flag of ticket `t`. */
  lemma WorkerPublishes(c: Config, cap: nat, m: Shared, i: nat, t: nat) returns (m': Shared)
    requires c.capacity == cap > 0 && Sized(m.comp, cap) && Slot(cap, t) < cap
    ensures WorkerMany(c, m, i, WPublish(i, t), 1) == (m', WPop)
    ensures SameButComp(m, m') && m'.completed == m.completed && m'.h.done == m.h.done
    ensures m'.comp.head == m.comp.head && m'.comp.tail == m.comp.tail
    ensures m'.comp.flags == m.comp.flags[Slot(cap, t) := t + 1] && m'.comp.queue == m.comp.queue
  {
    m' := m.(comp := Publish(m.comp, cap, t));
    OneWorkerStep(c, m, i, WPublish(i, t), m', WPop, 1);
  }

  /** The scheduler claims the completion at the head of the ring. */
  lemma SchedClaims(c: Config, n: nat, m: Shared, t: nat)
    requires N(c) == n && m.completed < n && m.err.NoError? && m.comp.head == t < m.comp.tail && t < n
    ensures SchedMany(c, m, 0, LoopCompleted, 11) == SchedMany(c, Claim(m, 0), 0, PopSpin(false, t), 6)
  {
    OneStep(c, m, 0, LoopCompleted, m, LoopError, 11);
    OneStep(c, m, 0, LoopError, m, PopHead(false), 10);
    SchedWins(c, n, m, t);
  }

  lemma SchedWins(c: Config, n: nat, m: Shared, t: nat)
    requires N(c) == n && m.comp.head == t < m.comp.tail && t < n
    ensures SchedMany(c, m, 0, PopHead(false), 9) == SchedMany(c, Claim(m, 0), 0, PopSpin(false, t), 6)
  {
    OneStep(c, m, 0, PopHead(false), m, PopTail(false, t), 9);
    OneStep(c, m, 0, PopTail(false, t), m, PopCas(false, t), 8);
    OneStep(c, m, 0, PopCas(false, t), Claim(m, 0), PopSpin(false, t), 7);
  }

  /** It reads the task in the slot. */
  lemma SchedReads(c: Config, cap: nat, m: Shared, t: nat, v: nat)
    requires c.capacity == cap && FlagOf(m.comp, cap, t) == t + 1 && ValueOf(m.comp, cap, t) == v
    ensures SchedMany(c, m, 0, PopSpin(false, t), 6) ==
            SchedMany(c, m.(comp := Clear(m.comp, cap, t)), 0, ProcStart(t, v), 3)
  {
    OneStep(c, m, 0, PopSpin(false, t), m, PopRead(false, t), 6);
    OneStep(c, m, 0, PopRead(false, t), m, PopClear(false, t, v), 5);
    OneStep(c, m, 0, PopClear(false, t, v), m.(comp := Clear(m.comp, cap, t)), ProcStart(t, v), 4);
  }

  /** It retires a task without dependents. */
  lemma SchedRetires(c: Config, m: Shared, t: nat, v: nat)
    requires InBounds(c, v) && Deps(c, v) == []
    ensures SchedMany(c, m, 0, ProcStart(t, v), 3) == (Retire(m, v), LoopCompleted)
  {
    OneStep(c, m, 0, ProcStart(t, v), m, Proc(t, v, 0), 3);
    OneStep(c, m, 0, Proc(t, v, 0), m, ProcDone(t, v), 2);
    OneStep(c, m, 0, ProcDone(t, v), Retire(m, v), LoopCompleted, 1);
  }

  /** The scheduler takes the completion at ticket `t` and retires the task that it reads there. */
  lemma SchedPops(c: Config, n: nat, cap: nat, m: Shared, t: nat, v: nat) returns (m': Shared)
    requires Small(c, n, cap) && 0 < v < n && m.completed < n && m.err.NoError? && Sized(m.comp, cap)
    requires m.comp.head == t < m.comp.tail && t < n && Slot(cap, t) < cap
    requires m.comp.flags[Slot(cap, t)] == t + 1 && m.comp.queue[Slot(cap, t)] == v
    ensures SchedMany(c, m, 0, LoopCompleted, 11) == (m', LoopCompleted)
    ensures SameButComp(m, m') && m'.completed == m.completed + 1 && m'.h.done == m.h.done + {v}
    ensures m'.comp.head == t + 1 && m'.comp.tail == m.comp.tail
    ensures m'.comp.flags == m.comp.flags[Slot(cap, t) := 0] && m'.comp.queue == m.comp.queue
  {
    NoDependents(c, n, cap, v);
    var m1 := Claim(m, 0);
    var m2 := m1.(comp := Clear(m1.comp, cap, t));
    m' := Retire(m2, v);
    SchedClaims(c, n, m, t);
    SchedReads(c, cap, m1, t, v);
    SchedRetires(c, m2, t, v);
  }

  // -------------------------------------------------------------------------
  // Every task is published and executed
  // -------------------------------------------------------------------------

  ghost predicate Blocks(c: Config, st: State, n: nat, pc: SchedPc) {
    |st.scheds| == 1 && st.scheds[0] == pc && |st.workers| == n
  }

  ghost predicate Untouched(m: Shared, n: nat, cap: nat) {
    && |m.fanin| == n && (forall i :: 0 <= i < n ==> m.fanin[i] == 0)
    && m.completed == 0 && m.err.NoError? && m.h.done == {}
    && AllClear(m.ready, cap) && AllClear(m.comp, cap) && m.comp.head == m.comp.tail == 0
  }

  /** The first `j` tasks have been published and executed, each by its own worker. */
  ghost predicate Executed(c: Config, st: State, n: nat, cap: nat, j: nat) {
    && Blocks(c, st, n, Scan(j)) && Untouched(st.m, n, cap) && st.m.ready.head == st.m.ready.tail == j <= n
    && st.m.initCount == 0
    && forall i :: 0 <= i < n ==> st.workers[i] == if i < j then WTicket(i, i) else WPop
  }

  lemma ExecuteOne(c: Config, st: State, n: nat, cap: nat, j: nat) returns (st': State)
    requires Small(c, n, cap) && j < n && Reaches(c, Init(c), st) && Executed(c, st, n, cap, j)
    ensures Reaches(c, Init(c), st') && Executed(c, st', n, cap, j + 1)
  {
    SlotInRing(cap, j);
    var m1 := SchedPushes(c, n, cap, st.m, j);
    var st1 := Advance(c, st, 0, 5, m1, Scan(j + 1));
    var m2 := WorkerTakes(c, n, cap, m1, j);
    st' := AdvanceWorker(c, st1, j, 7, m2, WTicket(j, j));
  }

  lemma {:induction false} ExecuteFirst(c: Config, n: nat, cap: nat, j: nat) returns (st: State)
    requires Small(c, n, cap) && j <= n
    ensures Reaches(c, Init(c), st) && Executed(c, st, n, cap, j)
    decreases j
  {
    if j == 0 {
      st := Init(c);
      ReachesSelf(c, st);
    } else {
      var before := ExecuteFirst(c, n, cap, j - 1);
      st := ExecuteOne(c, before, n, cap, j - 1);
    }
  }

  /** The scheduler has entered its loop, and every worker is about to draw a completion ticket. */
  ghost predicate AllExecuted(c: Config, st: State, n: nat, cap: nat) {
    && Blocks(c, st, n, LoopCompleted) && Untouched(st.m, n, cap)
    && forall i :: 0 <= i < n ==> st.workers[i] == WTicket(i, i)
  }

  lemma SchedEnters(c: Config, n: nat, m: Shared)
    requires N(c) == n > 0 && S(c) == 1 && m.ready.tail != 0
    ensures SchedMany(c, m, 0, Scan(n), 4) == (Announce(m, 0), LoopCompleted)
  {
    var m' := Announce(m, 0);
    OneStep(c, m, 0, Scan(n), m, InitAdd, 4);
    OneStep(c, m, 0, InitAdd, m', Barrier, 3);
    OneStep(c, m', 0, Barrier, m', CheckEmpty, 2);
    OneStep(c, m', 0, CheckEmpty, m', LoopCompleted, 1);
  }

  lemma ExecuteAll(c: Config, n: nat, cap: nat) returns (st: State)
    requires Small(c, n, cap)
    ensures Reaches(c, Init(c), st) && AllExecuted(c, st, n, cap)
  {
    var st1 := ExecuteFirst(c, n, cap, n);
    SchedEnters(c, n, st1.m);
    st := Advance(c, st1, 0, 4, Announce(st1.m, 0), LoopCompleted);
  }

  // -------------------------------------------------------------------------
  // Worker 0 stops before its write; the others fill the ring
  // -------------------------------------------------------------------------

  /** Worker 0 holds ticket 0 and has not written; workers 1 to i-1 have handed in their tasks. */
  ghost predicate Filling(c: Config, st: State, n: nat, cap: nat, i: nat) {
    && 1 <= i <= cap && Blocks(c, st, n, LoopCompleted)
    && st.m.completed == 0 && st.m.err.NoError? && st.m.h.done == {}
    && Sized(st.m.comp, cap) && st.m.comp.head == 0 && st.m.comp.tail == i
    && (forall k :: 0 <= k < cap ==> st.m.comp.flags[k] == if 1 <= k < i then k + 1 else 0)
    && (forall k :: 1 <= k < i ==> st.m.comp.queue[k] == k)
    && (forall k :: 0 <= k < n ==>
          st.workers[k] == if k == 0 then WPushWrite(0, 0) else if k < i then WPop else WTicket(k, k))
  }

  lemma FillStart(c: Config, n: nat, cap: nat) returns (st: State)
    requires Small(c, n, cap)
    ensures Reaches(c, Init(c), st) && Filling(c, st, n, cap, 1)
  {
    var st1 := ExecuteAll(c, n, cap);
    SlotInRing(cap, 0);
    var m2 := WorkerDrawsTicket(c, cap, st1.m, 0, 0);
    st := AdvanceWorker(c, st1, 0, 2, m2, WPushWrite(0, 0));
  }

  /** Worker `i` hands in its task under the next ticket `t`. */
  lemma HandIn(c: Config, st: State, cap: nat, i: nat, t: nat) returns (st': State)
    requires c.capacity == cap > 0 && Reaches(c, Init(c), st) && i < |st.workers| && st.workers[i] == WTicket(i, i)
    requires Sized(st.m.comp, cap) && st.m.comp.tail == t && Slot(cap, t) < cap && st.m.comp.flags[Slot(cap, t)] == 0
    ensures Reaches(c, Init(c), st') && st'.scheds == st.scheds && st'.workers == st.workers[i := WPop]
    ensures SameButComp(st.m, st'.m) && st'.m.completed == st.m.completed && st'.m.h.done == st.m.h.done
    ensures st'.m.comp.head == st.m.comp.head && st'.m.comp.tail == t + 1
    ensures st'.m.comp.flags == st.m.comp.flags[Slot(cap, t) := t + 1]
    ensures st'.m.comp.queue == st.m.comp.queue[Slot(cap, t) := i]
  {
    var m1 := WorkerDrawsTicket(c, cap, st.m, i, t);
    var st1 := AdvanceWorker(c, st, i, 2, m1, WPushWrite(i, t));
    var m2 := WorkerWrites(c, cap, m1, i, t);
    var st2 := AdvanceWorker(c, st1, i, 1, m2, WPublish(i, t));
    var m3 := WorkerPublishes(c, cap, m2, i, t);
    st' := AdvanceWorker(c, st2, i, 1, m3, WPop);
  }

  lemma {:induction false} FillTo(c: Config, n: nat, cap: nat, i: nat) returns (st: State)
    requires Small(c, n, cap) && 1 <= i <= cap
    ensures Reaches(c, Init(c), st) && Filling(c, st, n, cap, i)
    decreases i
  {
    if i == 1 {
      st := FillStart(c, n, cap);
    } else {
      var before := FillTo(c, n, cap, i - 1);
      SlotInRing(cap, i - 1);
      st := HandIn(c, before, cap, i - 1, i - 1);
      FilledNext(c, before, st, n, cap, i - 1);
    }
  }

  lemma FilledNext(c: Config, st: State, st': State, n: nat, cap: nat, i: nat)
    requires Filling(c, st, n, cap, i) && i < cap < n
    requires st'.scheds == st.scheds && st'.workers == st.workers[i := WPop]
    requires st'.m.completed == 0 && st'.m.err == st.m.err && st'.m.h.done == st.m.h.done
    requires st'.m.comp.head == 0 && st'.m.comp.tail == i + 1
    requires st'.m.comp.flags == st.m.comp.flags[i := i + 1] && st'.m.comp.queue == st.m.comp.queue[i := i]
    ensures Filling(c, st', n, cap, i + 1)
  {
  }

  // -------------------------------------------------------------------------
  // Two workers in one slot
  // -------------------------------------------------------------------------

  /** Workers 0 and `cap` have both written slot 0, and ticket 0 is published with the task of the latter. */
  ghost predicate Collided(c: Config, st: State, n: nat, cap: nat) {
    && Blocks(c, st, n, LoopCompleted)
    && st.m.completed == 0 && st.m.err.NoError? && st.m.h.done == {}
    && Sized(st.m.comp, cap) && st.m.comp.head == 0 && st.m.comp.tail == cap + 1
    && (forall k :: 0 <= k < cap ==> st.m.comp.flags[k] == k + 1)
    && (forall k :: 0 <= k < cap ==> st.m.comp.queue[k] == if k == 0 then cap else k)
    && (forall k :: 0 <= k < n ==>
          st.workers[k] == if k == cap then WPublish(cap, cap) else if k < cap then WPop else WTicket(k, k))
  }

  /** The ring when worker `cap` has drawn its ticket and has found slot 0 free, as worker 0 had. */
  ghost predicate TwoInOne(c: Config, st: State, n: nat, cap: nat) {
    && Blocks(c, st, n, LoopCompleted)
    && st.m.completed == 0 && st.m.err.NoError? && st.m.h.done == {}
    && Sized(st.m.comp, cap) && st.m.comp.head == 0 && st.m.comp.tail == cap + 1
    && (forall k :: 0 <= k < cap ==> st.m.comp.flags[k] == if k == 0 then 0 else k + 1)
    && (forall k :: 1 <= k < cap ==> st.m.comp.queue[k] == k)
    && (forall k :: 0 <= k < n ==>
          st.workers[k] == if k == 0 then WPushWrite(0, 0) else if k < cap then WPop
                           else if k == cap then WPushWrite(cap, cap) else WTicket(k, k))
  }

  lemma DrawTwo(c: Config, n: nat, cap: nat) returns (st: State)
    requires Small(c, n, cap)
    ensures Reaches(c, Init(c), st) && TwoInOne(c, st, n, cap)
  {
    SlotInRing(cap, cap);
    var st1 := FillTo(c, n, cap, cap);
    var m2 := WorkerDrawsTicket(c, cap, st1.m, cap, cap);
    st := AdvanceWorker(c, st1, cap, 2, m2, WPushWrite(cap, cap));
  }

  /** Worker 0 writes slot 0, worker `cap` overwrites it, and worker 0 publishes. */
  lemma Overwrite(c: Config, st: State, n: nat, cap: nat) returns (st': State)
    requires Small(c, n, cap) && Reaches(c, Init(c), st) && |st.workers| == n && Sized(st.m.comp, cap)
    requires st.workers[0] == WPushWrite(0, 0) && st.workers[cap] == WPushWrite(cap, cap)
    ensures Reaches(c, Init(c), st') && st'.scheds == st.scheds
    ensures st'.workers == st.workers[cap := WPublish(cap, cap)][0 := WPop]
    ensures SameButComp(st.m, st'.m) && st'.m.completed == st.m.completed && st'.m.h.done == st.m.h.done
    ensures st'.m.comp.head == st.m.comp.head && st'.m.comp.tail == st.m.comp.tail
    ensures st'.m.comp.flags == st.m.comp.flags[0 := 1] && st'.m.comp.queue == st.m.comp.queue[0 := cap]
  {
    SlotInRing(cap, 0);
    var m1 := WorkerWrites(c, cap, st.m, 0, 0);
    var st1 := AdvanceWorker(c, st, 0, 1, m1, WPublish(0, 0));
    var m2 := WorkerWrites(c, cap, m1, cap, cap);
    var st2 := AdvanceWorker(c, st1, cap, 1, m2, WPublish(cap, cap));
    var m3 := WorkerPublishes(c, cap, m2, 0, 0);
    st' := AdvanceWorker(c, st2, 0, 1, m3, WPop);
  }

  lemma Collide(c: Config, n: nat, cap: nat) returns (st: State)
    requires Small(c, n, cap)
    ensures Reaches(c, Init(c), st) && Collided(c, st, n, cap)
  {
    var before := DrawTwo(c, n, cap);
    st := Overwrite(c, before, n, cap);
  }

  // -------------------------------------------------------------------------
  // The scheduler counts task `cap` twice
  // -------------------------------------------------------------------------

  /** The ring when the completions up to ticket i-1 have been taken. */
  ghost predicate DrainedRing(r: Ring, cap: nat, i: nat) {
    && Sized(r, cap) && r.head == i && r.tail == cap + 1
    && (forall k :: 0 <= k < cap ==>
          r.flags[k] == if k == 0 then (if i <= cap then cap + 1 else 0) else if k < i then 0 else k + 1)
    && (forall k :: 0 <= k < cap ==> r.queue[k] == if k == 0 then cap else k)
  }

  /** Task `cap` and then tasks 1 to i-1 have been counted. */
  ghost predicate Draining(c: Config, st: State, n: nat, cap: nat, i: nat) {
    && 1 <= i <= cap + 1 && Blocks(c, st, n, LoopCompleted) && st.m.completed == i && st.m.err.NoError?
    && (forall v :: v in st.m.h.done <==> v == cap || 1 <= v < i)
    && DrainedRing(st.m.comp, cap, i)
    && (forall k :: 0 <= k < n ==> st.workers[k] == if k <= cap then WPop else WTicket(k, k))
  }

  /** The next ticket of the ring carries the task of the same number. */
  lemma NextInRing(r: Ring, cap: nat, i: nat)
    requires DrainedRing(r, cap, i) && 1 <= i <= cap
    ensures var s := Slot(cap, i); s < cap && r.flags[s] == i + 1 && r.queue[s] == i
  {
    SlotInRing(cap, i);
  }

  lemma RingDrained(r: Ring, r': Ring, cap: nat, i: nat)
    requires DrainedRing(r, cap, i) && 1 <= i <= cap && r'.head == i + 1 && r'.tail == r.tail
    requires Slot(cap, i) < cap && r'.flags == r.flags[Slot(cap, i) := 0] && r'.queue == r.queue
    ensures DrainedRing(r', cap, i + 1)
  {
    SlotInRing(cap, i);
  }

  lemma DrainOne(c: Config, st: State, n: nat, cap: nat, i: nat) returns (st': State)
    requires Small(c, n, cap) && 1 <= i <= cap && Reaches(c, Init(c), st) && Draining(c, st, n, cap, i)
    ensures Reaches(c, Init(c), st') && Draining(c, st', n, cap, i + 1)
  {
    NextInRing(st.m.comp, cap, i);
    var m := SchedPops(c, n, cap, st.m, i, i);
    RingDrained(st.m.comp, m.comp, cap, i);
    st' := Advance(c, st, 0, 11, m, LoopCompleted);
  }

  lemma DrainStart(c: Config, n: nat, cap: nat) returns (st: State)
    requires Small(c, n, cap)
    ensures Reaches(c, Init(c), st) && Draining(c, st, n, cap, 1)
  {
    SlotInRing(cap, 0);
    SlotInRing(cap, cap);
    var st1 := Collide(c, n, cap);
    var m2 := SchedPops(c, n, cap, st1.m, 0, cap);
    var st2 := Advance(c, st1, 0, 11, m2, LoopCompleted);
    var m3 := WorkerPublishes(c, cap, m2, cap, cap);
    st := AdvanceWorker(c, st2, cap, 1, m3, WPop);
  }

  lemma {:induction false} DrainTo(c: Config, n: nat, cap: nat, i: nat) returns (st: State)
    requires Small(c, n, cap) && 1 <= i <= cap + 1
    ensures Reaches(c, Init(c), st) && Draining(c, st, n, cap, i)
    decreases i
  {
    if i == 1 {
      st := DrainStart(c, n, cap);
    } else {
      var before := DrainTo(c, n, cap, i - 1);
      st := DrainOne(c, before, n, cap, i - 1);
    }
  }

  /** All completions handed in so far have been counted; task 0 is not among them. */
  ghost predicate Counted(c: Config, st: State, n: nat, cap: nat, i: nat) {
    && cap < i <= n && Blocks(c, st, n, LoopCompleted) && st.m.completed == i && st.m.err.NoError?
    && (forall v :: v in st.m.h.done <==> 1 <= v < i)
    && AllClear(st.m.comp, cap) && st.m.comp.head == st.m.comp.tail == i
    && (forall k :: 0 <= k < n ==> st.workers[k] == if k < i then WPop else WTicket(k, k))
  }

  /** One more completion is handed in and taken out again. */
  lemma Serve(c: Config, st: State, n: nat, cap: nat, i: nat) returns (st': State)
    requires Small(c, n, cap) && 0 < i < n && Reaches(c, Init(c), st) && Blocks(c, st, n, LoopCompleted)
    requires st.workers[i] == WTicket(i, i) && st.m.completed < n && st.m.err.NoError?
    requires AllClear(st.m.comp, cap) && st.m.comp.head == st.m.comp.tail == i
    ensures Reaches(c, Init(c), st') && st'.scheds == st.scheds && st'.workers == st.workers[i := WPop]
    ensures SameButComp(st.m, st'.m) && st'.m.completed == st.m.completed + 1 && st'.m.h.done == st.m.h.done + {i}
    ensures AllClear(st'.m.comp, cap) && st'.m.comp.head == st'.m.comp.tail == i + 1
  {
    SlotInRing(cap, i);
    var st1 := HandIn(c, st, cap, i, i);
    InAndOut(st.m.comp.flags, st.m.comp.queue, Slot(cap, i), i);
    var m := SchedPops(c, n, cap, st1.m, i, i);
    st' := Advance(c, st1, 0, 11, m, LoopCompleted);
  }

  lemma CountOne(c: Config, st: State, n: nat, cap: nat, i: nat) returns (st': State)
    requires Small(c, n, cap) && cap < i < n && Reaches(c, Init(c), st) && Counted(c, st, n, cap, i)
    ensures Reaches(c, Init(c), st') && Counted(c, st', n, cap, i + 1)
  {
    st' := Serve(c, st, n, cap, i);
    CountedNext(c, st, st', n, cap, i);
  }

  lemma CountedNext(c: Config, st: State, st': State, n: nat, cap: nat, i: nat)
    requires Counted(c, st, n, cap, i) && i < n
    requires st'.scheds == st.scheds && st'.workers == st.workers[i := WPop]
    requires st'.m.completed == i + 1 && st'.m.err == st.m.err && st'.m.h.done == st.m.h.done + {i}
    requires AllClear(st'.m.comp, cap) && st'.m.comp.head == st'.m.comp.tail == i + 1
    ensures Counted(c, st', n, cap, i + 1)
  {
  }

  lemma InAndOut(flags: seq<nat>, queue: seq<nat>, s: nat, i: nat)
    requires s < |flags| == |queue| && flags[s] == 0
    ensures var flags' := flags[s := i + 1];
      flags'[s] == i + 1 && queue[s := i][s] == i && flags'[s := 0] == flags
  {
  }

  lemma CountStart(c: Config, st: State, n: nat, cap: nat)
    requires Small(c, n, cap) && Draining(c, st, n, cap, cap + 1)
    ensures Counted(c, st, n, cap, cap + 1)
  {
  }

  lemma {:induction false} CountTo(c: Config, n: nat, cap: nat, i: nat) returns (st: State)
    requires Small(c, n, cap) && cap < i <= n
    ensures Reaches(c, Init(c), st) && Counted(c, st, n, cap, i)
    decreases i
  {
    if i == cap + 1 {
      st := DrainTo(c, n, cap, cap + 1);
      CountStart(c, st, n, cap);
    } else {
      var before := CountTo(c, n, cap, i - 1);
      st := CountOne(c, before, n, cap, i - 1);
    }
  }

  /** A clean finish that never retired task 0. */
  lemma SmallRingRun(c: Config, n: nat, cap: nat) returns (schedule: seq<Actor>)
    requires Small(c, n, cap)
    ensures var m := Run(c, Init(c), schedule).m; CleanFinish(c, m) && m.h.done == UpTo(n) - {0}
  {
    var st := CountTo(c, n, cap, n);
    schedule :| Run(c, Init(c), schedule) == st;
    assert st.m.h.done == UpTo(n) - {0};
  }

  // -------------------------------------------------------------------------
  // A slot for each task is what the guarantees need
  // -------------------------------------------------------------------------

  /** The step of `a` retires a task. */
  predicate Retires(st: State, a: Actor) {
    a.Sched? && a.s < |st.scheds| && st.scheds[a.s].ProcDone?
  }

  lemma RetireEffect(c: Config, st: State, a: Actor)
    ensures var m, m' := st.m, Step(c, st, a).m;
      if Retires(st, a) then m'.completed == m.completed + 1 && m'.h.done == m.h.done + {st.scheds[a.s].p}
      else m'.completed == m.completed && m'.h.done == m.h.done
  {
  }

  /** If no task is retired twice, the count is the number of retired tasks. */
  lemma {:induction false} OnceMeansCounted(c: Config, schedule: seq<Actor>)
    requires forall v: nat :: Count(c, schedule, RetireTask, v) <= 1
    ensures var m := Run(c, Init(c), schedule).m;
      && m.completed == |m.h.done|
      && forall v :: v in m.h.done ==> Count(c, schedule, RetireTask, v) == 1
    decreases |schedule|
  {
    if schedule != [] {
      var before := schedule[..|schedule| - 1];
      var a := schedule[|schedule| - 1];
      var st := Run(c, Init(c), before);
      forall v: nat ensures Count(c, before, RetireTask, v) <= Count(c, schedule, RetireTask, v) {
      }
      forall v: nat ensures Count(c, before, RetireTask, v) <= 1 {
        assert Count(c, schedule, RetireTask, v) <= 1;
      }
      OnceMeansCounted(c, before);
      RetireEffect(c, st, a);
      if Retires(st, a) {
        assert Count(c, schedule, RetireTask, st.scheds[a.s].p) <= 1;
      }
    }
  }

  lemma RetiredIsTask(c: Config, m: Shared, s: nat, pc: SchedPc)
    requires SchedInv(c, m, s, pc) && pc.ProcDone?
    ensures pc.p < N(c)
  {
  }

  lemma StrangerIsNotRetired(c: Config, st: State, a: Actor, v: nat)
    requires Inv(c, st) && v >= N(c)
    ensures !Fires(st, a, RetireTask, v)
  {
    if Retires(st, a) {
      RetiredIsTask(c, st.m, a.s, st.scheds[a.s]);
    }
  }

  /** Only tasks of the table are retired, if every task has a slot. */
  lemma {:induction false} OnlyTasksRetire(c: Config, schedule: seq<Actor>, v: nat)
    requires Launchable(c) && v >= N(c)
    ensures Count(c, schedule, RetireTask, v) == 0
    decreases |schedule|
  {
    if schedule != [] {
      var before := schedule[..|schedule| - 1];
      OnlyTasksRetire(c, before, v);
      RunOk(c, before);
      StrangerIsNotRetired(c, Run(c, Init(c), before), schedule[|schedule| - 1], v);
    }
  }

  /** The launches with `n` tasks and `cap` slots. */
  ghost predicate Launch(c: Config, n: nat, cap: nat) {
    N(c) == n && |c.fanin0| == n && c.capacity == cap
  }

  /** No launch with these sizes ever retires a task twice. */
  ghost predicate RetiresOnce(n: nat, cap: nat) {
    forall c: Config, schedule: seq<Actor>, v: nat :: Launch(c, n, cap) ==> Count(c, schedule, RetireTask, v) <= 1
  }

  /** With these sizes, every clean finish certifies its task table. */
  ghost predicate Certifies(n: nat, cap: nat) {
    forall c: Config, schedule: seq<Actor> ::
      Launch(c, n, cap) && CleanFinish(c, Run(c, Init(c), schedule).m) ==>
        WellFormed(c, Run(c, Init(c), schedule).m.ready.vals)
  }

  /** No task is ever retired twice if and only if there is a slot for each task. */
  lemma RetiresOnceIff(n: nat, cap: nat)
    requires cap >= 1
    ensures RetiresOnce(n, cap) <==> n <= cap
  {
    if n <= cap {
      forall c: Config, schedule: seq<Actor>, v: nat | Launch(c, n, cap) ensures Count(c, schedule, RetireTask, v) <= 1 {
        if v < n {
          AtMostOnce(c, schedule, RetireTask, v);
        } else {
          OnlyTasksRetire(c, schedule, v);
        }
      }
    } else {
      var c := Table(n, cap);
      TableIsSmall(n, cap);
      var schedule := SmallRingRun(c, n, cap);
      if RetiresOnce(n, cap) {
        OnceMeansCounted(c, schedule);
        assert false;
      }
    }
  }

  /** A clean finish certifies the table if and only if there is a slot for each task. */
  lemma CertifiesIff(n: nat, cap: nat)
    requires cap >= 1
    ensures Certifies(n, cap) <==> n <= cap
  {
    if n <= cap {
      forall c: Config, schedule: seq<Actor> | Launch(c, n, cap) && CleanFinish(c, Run(c, Init(c), schedule).m)
        ensures WellFormed(c, Run(c, Init(c), schedule).m.ready.vals)
      {
        CleanFinishCertifies(c, schedule);
      }
    } else {
      var c := Table(n, cap);
      TableIsSmall(n, cap);
      TableIsBroken(c, n, cap);
      var schedule := SmallRingRun(c, n, cap);
      assert CleanFinish(c, Run(c, Init(c), schedule).m);
    }
  }
}
