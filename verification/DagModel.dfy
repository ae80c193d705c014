/**
 The persistent-device DAG executor as a state machine.

 Every scheduler block and every worker block is one actor.  One step is one
 atomic operation on shared memory together with the local control that
 follows it.  The next step of an actor is determined by the shared memory and
 by its own position, so a run is given by a schedule: the sequence of actors
 that move.
 */
module DagModel {
  import opened TicketRing
  import opened Arithmetic

  datatype Task = Task(
    funcId: nat,
    ins: seq<nat>,        // buffers the body reads
    out: nat,             // buffer the body writes
    scalars: seq<real>,
    depBegin: nat,
    depCount: nat,
    initialFanin: nat)

  datatype Config = Config(
    tasks: seq<Task>,
    dependents: seq<nat>,
    fanin0: seq<nat>,          // the fan-in array as uploaded by the host
    memory0: seq<Buffer>,      // the device buffers as uploaded by the host
    capacity: nat,
    schedulerBlocks: nat,
    workerBlocks: nat,
    registered: set<nat>,      // func_ids with a case in the generated dispatch
    body: (Task, seq<Buffer>) -> Buffer)

  function N(c: Config): nat { |c.tasks| }

  /** Zero scheduler blocks are treated as one. */
  function S(c: Config): (r: nat)
    ensures r > 0
  {
    if c.schedulerBlocks == 0 then 1 else c.schedulerBlocks
  }

  predicate InBounds(c: Config, p: nat) {
    p < N(c) && c.tasks[p].depBegin + c.tasks[p].depCount <= |c.dependents|
  }

  /** The dependent ids listed for task `p`; empty when the range is out of bounds. */
  function Deps(c: Config, p: nat): seq<nat> {
    if InBounds(c, p) then c.dependents[c.tasks[p].depBegin..c.tasks[p].depBegin + c.tasks[p].depCount] else []
  }

  lemma DepsInOrder(c: Config, p: nat, i: nat)
    requires InBounds(c, p) && i < c.tasks[p].depCount
    ensures |Deps(c, p)| == c.tasks[p].depCount && Deps(c, p)[i] == c.dependents[c.tasks[p].depBegin + i]
  {
  }

  datatype Error = NoError | Error(code: nat, task: nat)

  // History of a run, written by the steps and never read by them.
  datatype History = History(
    owner: seq<int>,        // scheduler that must push the task, -1 while nobody must
    dec: seq<set<nat>>,     // predecessors whose edge into the task has been counted down
    inited: set<nat>,       // schedulers that have announced the end of their scan
    published: set<nat>,    // tasks with a ready ticket
    popped: set<nat>,       // tasks read from the ready ring
    ran: set<nat>,          // tasks whose body has stored its output
    completes: set<nat>,    // tasks with a completion ticket
    claimed: set<nat>,      // tasks whose completion ticket a scheduler has won
    done: set<nat>)         // tasks counted in completed

  datatype Shared = Shared(
    fanin: seq<nat>,
    ready: Ring,
    comp: Ring,
    completed: nat,
    initCount: nat,
    err: Error,
    mem: seq<Buffer>,
    h: History)

  // Where a scheduler continues after a push or after recording an error.
  datatype Cont = ToScan(idx: nat) | ToProc(t: nat, p: nat, i: nat) | ToLoop | ToExit

  datatype SchedPc =
    | Scan(idx: nat)
    | PushTicket(j: nat, k: Cont)
    | PushWait(j: nat, t: nat, k: Cont)
    | PushWrite(j: nat, t: nat, k: Cont)
    | PushPublish(j: nat, t: nat, k: Cont)
    | Fail(code: nat, task: nat, k: Cont)
    | InitAdd
    | Barrier
    | BarrierErr
    | CheckEmpty
    | LoopCompleted
    | LoopError
    | PopHead(late: bool)
    | PopTail(late: bool, head: nat)
    | PopCas(late: bool, head: nat)
    | PopSpin(late: bool, t: nat)
    | PopSpinErr(late: bool, t: nat)
    | PopRead(late: bool, t: nat)
    | PopClear(late: bool, t: nat, v: nat)
    | ProcStart(t: nat, p: nat)
    | Proc(t: nat, p: nat, i: nat)
    | DecRead(t: nat, p: nat, i: nat)
    | DecCas(t: nat, p: nat, i: nat, seen: nat)
    | ProcDone(t: nat, p: nat)
    | StallTail(again: bool)
    | StallFinished(again: bool, pub: nat)
    | StallClaimed(again: bool, pub: nat, fin: nat)
    | StallCompleted(again: bool, pub: nat, fin: nat, cla: nat)
    | Unready(idx: nat)
    | SchedDone

  datatype WorkerPc =
    | WPop
    | WSpin(t: nat)
    | WSpinErr(t: nat)
    | WRead(t: nat)
    | WClear(t: nat, v: nat)
    | WDispatch(t: nat, v: nat)
    | WFail(t: nat, v: nat)
    | WLoad(t: nat, v: nat, args: seq<Buffer>)
    | WStore(t: nat, v: nat, args: seq<Buffer>)
    | WTicket(t: nat, v: nat)
    | WPushWait(v: nat, ct: nat)
    | WPushWrite(v: nat, ct: nat)
    | WPublish(v: nat, ct: nat)
    | WDone

  // -------------------------------------------------------------------------
  // Scheduler steps
  // -------------------------------------------------------------------------

  /** The sticky first-error latch. */
  function RecordError(m: Shared, code: nat, task: nat): Shared {
    if m.err.NoError? then m.(err := Error(code, task)) else m
  }

  function Resume(k: Cont): SchedPc {
    match k
    case ToScan(idx) => Scan(idx)
    case ToProc(t, p, i) => Proc(t, p, i)
    case ToLoop => LoopCompleted
    case ToExit => SchedDone
  }

  /** One iteration of the strided initial scan. */
  function ScanStep(c: Config, m: Shared, s: nat, idx: nat): (Shared, SchedPc) {
    if idx >= N(c) then
      (m, InitAdd)
    else if Load(m.fanin, idx) != c.tasks[idx].initialFanin then
      (m, Fail(5, idx, ToScan(idx + S(c))))
    else if c.tasks[idx].initialFanin == 0 then
      (m.(h := m.h.(owner := Store(m.h.owner, idx, s))), PushTicket(idx, ToScan(idx + S(c))))
    else
      (m, Scan(idx + S(c)))
  }

  /** The pop of a completion found nothing: only block 0 goes on to the stall check. */
  function PopMissed(s: nat, late: bool): SchedPc {
    if late then StallTail(true) else if s == 0 then StallTail(false) else LoopCompleted
  }

  /** One dependent of a processed completion, up to the fan-in decrement. */
  function ProcStep(c: Config, t: nat, p: nat, i: nat): SchedPc {
    var deps := Deps(c, p);
    if i >= |deps| then ProcDone(t, p)
    else if deps[i] >= N(c) then Fail(2, deps[i], ToProc(t, p, i + 1))
    else if deps[i] == p then Fail(9, deps[i], ToProc(t, p, i + 1))
    else if deps[i] in deps[..i] then Fail(8, deps[i], ToProc(t, p, i + 1))
    else DecRead(t, p, i)
  }

  function DepAt(c: Config, p: nat, i: nat): nat {
    if i < |Deps(c, p)| then Deps(c, p)[i] else 0
  }

  function DecReadStep(c: Config, m: Shared, t: nat, p: nat, i: nat): SchedPc {
    var d := DepAt(c, p, i);
    if Load(m.fanin, d) == 0 then Fail(4, d, ToProc(t, p, i + 1)) else DecCas(t, p, i, Load(m.fanin, d))
  }

  /** A successful compare-and-swap takes the edge from `p` off the fan-in of `d`. */
  function CountDown(m: Shared, s: nat, d: nat, p: nat, seen: nat): Shared
    requires seen > 0
  {
    m.(fanin := Store(m.fanin, d, seen - 1),
       h := m.h.(dec := if d < |m.h.dec| then m.h.dec[d := m.h.dec[d] + {p}] else m.h.dec,
                 owner := if seen == 1 then Store(m.h.owner, d, s) else m.h.owner))
  }

  function DecCasStep(c: Config, m: Shared, s: nat, t: nat, p: nat, i: nat, seen: nat): (Shared, SchedPc) {
    var d := DepAt(c, p, i);
    if Load(m.fanin, d) != seen || seen == 0 then
      (m, DecRead(t, p, i))
    else
      (CountDown(m, s, d, p, seen),
       if seen == 1 then PushTicket(d, ToProc(t, p, i + 1)) else Proc(t, p, i + 1))
  }

  function StallDecide(c: Config, m: Shared, again: bool, pub: nat, fin: nat, cla: nat): SchedPc {
    if pub == fin && cla == m.completed && m.completed < N(c) then
      if again then Unready(0) else PopHead(true)
    else
      LoopCompleted
  }

  function TakeTicket(m: Shared, s: nat, j: nat): Shared {
    m.(ready := DrawPush(m.ready, s, j), h := m.h.(published := m.h.published + {j}))
  }

  function Announce(m: Shared, s: nat): Shared {
    m.(initCount := m.initCount + 1, h := m.h.(inited := m.h.inited + {s}))
  }

  function Claim(m: Shared, s: nat): Shared {
    m.(comp := DrawPop(m.comp, s), h := m.h.(claimed := m.h.claimed + {Load(m.comp.vals, m.comp.head)}))
  }

  function Retire(m: Shared, p: nat): Shared {
    m.(completed := m.completed + 1, h := m.h.(done := m.h.done + {p}))
  }

  function SchedNext(c: Config, m: Shared, s: nat, pc: SchedPc): (Shared, SchedPc) {
    match pc
    case Scan(idx) => ScanStep(c, m, s, idx)
    case PushTicket(j, k) => (TakeTicket(m, s, j), PushWait(j, m.ready.tail, k))
    case PushWait(j, t, k) =>
      (m, if FlagOf(m.ready, c.capacity, t) != 0 then pc else PushWrite(j, t, k))
    case PushWrite(j, t, k) => (m.(ready := Write(m.ready, c.capacity, t, j)), PushPublish(j, t, k))
    case PushPublish(j, t, k) => (m.(ready := Publish(m.ready, c.capacity, t)), Resume(k))
    case Fail(code, task, k) => (RecordError(m, code, task), Resume(k))
    case InitAdd => (Announce(m, s), Barrier)
    case Barrier => (m, if m.initCount < S(c) then BarrierErr else CheckEmpty)
    case BarrierErr => (m, if m.err.NoError? then Barrier else CheckEmpty)
    case CheckEmpty =>
      (m, if s == 0 && N(c) != 0 && m.ready.tail == 0 then Fail(6, 0, ToLoop) else LoopCompleted)
    case LoopCompleted => (m, if m.completed < N(c) then LoopError else SchedDone)
    case LoopError => (m, if m.err.NoError? then PopHead(false) else SchedDone)
    case PopHead(late) => (m, PopTail(late, m.comp.head))
    case PopTail(late, head) =>
      (m, if head >= N(c) || head >= m.comp.tail then PopMissed(s, late) else PopCas(late, head))
    case PopCas(late, head) =>
      if m.comp.head != head then (m, PopHead(late)) else (Claim(m, s), PopSpin(late, head))
    case PopSpin(late, t) =>
      (m, if FlagOf(m.comp, c.capacity, t) == t + 1 then PopRead(late, t) else PopSpinErr(late, t))
    case PopSpinErr(late, t) => (m, if m.err.NoError? then PopSpin(late, t) else PopMissed(s, late))
    case PopRead(late, t) => (m, PopClear(late, t, ValueOf(m.comp, c.capacity, t)))
    case PopClear(late, t, v) => (m.(comp := Clear(m.comp, c.capacity, t)), ProcStart(t, v))
    case ProcStart(t, p) => (m, if InBounds(c, p) then Proc(t, p, 0) else Fail(3, p, ToLoop))
    case Proc(t, p, i) => (m, ProcStep(c, t, p, i))
    case DecRead(t, p, i) => (m, DecReadStep(c, m, t, p, i))
    case DecCas(t, p, i, seen) => DecCasStep(c, m, s, t, p, i, seen)
    case ProcDone(t, p) => (Retire(m, p), LoopCompleted)
    case StallTail(again) => (m, StallFinished(again, m.ready.tail))
    case StallFinished(again, pub) => (m, StallClaimed(again, pub, m.comp.tail))
    case StallClaimed(again, pub, fin) => (m, StallCompleted(again, pub, fin, m.comp.head))
    case StallCompleted(again, pub, fin, cla) => (m, StallDecide(c, m, again, pub, fin, cla))
    case Unready(idx) =>
      (m, if idx >= N(c) then LoopCompleted
          else if Load(m.fanin, idx) != 0 then Fail(7, idx, ToExit)
          else Unready(idx + 1))
    case SchedDone => (m, SchedDone)
  }

  // -------------------------------------------------------------------------
  // Worker steps
  // -------------------------------------------------------------------------

  function BufferAt(mem: seq<Buffer>, i: nat): Buffer {
    if i < |mem| then mem[i] else []
  }

  function TaskAt(c: Config, v: nat): Task {
    if v < N(c) then c.tasks[v] else Task(0, [], 0, [], 0, 0, 0)
  }

  /** Arguments are loaded one buffer per step. */
  function WLoadStep(c: Config, m: Shared, t: nat, v: nat, args: seq<Buffer>): WorkerPc {
    var ins := TaskAt(c, v).ins;
    if |args| < |ins| then WLoad(t, v, args + [BufferAt(m.mem, ins[|args|])]) else WStore(t, v, args)
  }

  function Consume(c: Config, m: Shared, t: nat, v: nat): Shared {
    m.(ready := Clear(m.ready, c.capacity, t), h := m.h.(popped := m.h.popped + {v}))
  }

  function StoreOutput(c: Config, m: Shared, v: nat, args: seq<Buffer>): Shared {
    m.(mem := Store(m.mem, TaskAt(c, v).out, c.body(TaskAt(c, v), args)), h := m.h.(ran := m.h.ran + {v}))
  }

  function TakeCompletionTicket(m: Shared, w: nat, v: nat): Shared {
    m.(comp := DrawPush(m.comp, w, v), h := m.h.(completes := m.h.completes + {v}))
  }

  function WorkerNext(c: Config, m: Shared, w: nat, pc: WorkerPc): (Shared, WorkerPc) {
    match pc
    case WPop =>
      (m.(ready := DrawPop(m.ready, w)), if m.ready.head >= N(c) then WDone else WSpin(m.ready.head))
    case WSpin(t) => (m, if FlagOf(m.ready, c.capacity, t) == t + 1 then WRead(t) else WSpinErr(t))
    case WSpinErr(t) => (m, if m.err.NoError? then WSpin(t) else WDone)
    case WRead(t) => (m, WClear(t, ValueOf(m.ready, c.capacity, t)))
    case WClear(t, v) => (Consume(c, m, t, v), WDispatch(t, v))
    case WDispatch(t, v) => (m, if TaskAt(c, v).funcId in c.registered then WLoad(t, v, []) else WFail(t, v))
    case WFail(t, v) => (RecordError(m, 1, v), WPop)
    case WLoad(t, v, args) => (m, WLoadStep(c, m, t, v, args))
    case WStore(t, v, args) => (StoreOutput(c, m, v, args), WTicket(t, v))
    case WTicket(t, v) => (TakeCompletionTicket(m, w, v), WPushWait(v, m.comp.tail))
    case WPushWait(v, ct) => (m, if FlagOf(m.comp, c.capacity, ct) != 0 then pc else WPushWrite(v, ct))
    case WPushWrite(v, ct) => (m.(comp := Write(m.comp, c.capacity, ct, v)), WPublish(v, ct))
    case WPublish(v, ct) => (m.(comp := Publish(m.comp, c.capacity, ct)), WPop)
    case WDone => (m, WDone)
  }

  // -------------------------------------------------------------------------
  // Runs
  // -------------------------------------------------------------------------

  datatype State = State(m: Shared, scheds: seq<SchedPc>, workers: seq<WorkerPc>)

  datatype Actor = Sched(s: nat) | Worker(w: nat)

  function Step(c: Config, st: State, a: Actor): State {
    match a
    case Sched(s) =>
      if s < |st.scheds| then
        var (m, pc) := SchedNext(c, st.m, s, st.scheds[s]);
        State(m, st.scheds[s := pc], st.workers)
      else st
    case Worker(w) =>
      if w < |st.workers| then
        var (m, pc) := WorkerNext(c, st.m, w, st.workers[w]);
        State(m, st.scheds, st.workers[w := pc])
      else st
  }

  /** The state the host uploads before the launch. */
  function Init(c: Config): State {
    State(
      Shared(c.fanin0, Empty(c.capacity), Empty(c.capacity), 0, 0, NoError, c.memory0,
             History(seq(N(c), _ => -1), seq(N(c), _ => {}), {}, {}, {}, {}, {}, {}, {})),
      seq(S(c), (s: nat) => Scan(s)),
      seq(c.workerBlocks, _ => WPop))
  }

  /** The state after the actors of `schedule` have moved in that order. */
  function Run(c: Config, st: State, schedule: seq<Actor>): State {
    if schedule == [] then st
    else Step(c, Run(c, st, schedule[..|schedule| - 1]), schedule[|schedule| - 1])
  }

  /** What the launch must provide: a fan-in entry per task and a ring slot per task. */
  predicate Launchable(c: Config) {
    |c.fanin0| == N(c) && N(c) <= c.capacity
  }
}
