/**
 The scheduler loop as step functions on its state.  The children are the
 environment: every `poll` of a child and every wait takes one tick of a clock;
 the child of job `j` is found dead from tick `death(j)` on.  Building the command
 of `j` raises unless `builds(j)`, spawning its child raises unless `spawns(j)`, and
 the callback on its result raises unless `notifies(j)`.
 */
module JobSteps {
  import opened JobLog
  import opened Arithmetic

  datatype Env = Env(death: nat -> nat, builds: nat -> bool, spawns: nat -> bool, notifies: nat -> bool)

  datatype Launch = Launched | Blocked | Raised

  datatype Progress = Again | Stuck | Threw(job: nat) | Interrupted(job: nat)

  datatype St = St(
    free: seq<int>,
    queue: seq<nat>,
    running: seq<Running>,
    results: seq<Result>,
    failed: bool,
    cancelled: bool,
    clock: nat,
    log: Log)

  /** Python's `s[:count]`. */
  function PyTake(s: seq<int>, count: int): seq<int> {
    if count >= 0 then (if count <= |s| then s[..count] else s)
    else if |s| + count >= 0 then s[..|s| + count] else []
  }

  /** Python's `s[count:]`. */
  function PyDrop(s: seq<int>, count: int): seq<int> {
    if count >= 0 then (if count <= |s| then s[count..] else [])
    else if |s| + count >= 0 then s[|s| + count..] else s
  }

  /** `queue` lists the jobs from position `k` on. */
  ghost predicate Remaining(queue: seq<nat>, k: nat, n: nat) {
    k + |queue| == n && forall i :: 0 <= i < |queue| ==> queue[i] == k + i
  }

  function Start(setup: Setup): St {
    St(setup.pool, FirstJobs(|setup.jobs|), [], [], false, false, 0, Empty)
  }

  // -------------------------------------------------------------------------
  // Steps
  // -------------------------------------------------------------------------

  predicate Capped(setup: Setup, st: St) {
    setup.maxParallel.Some? && |st.running| >= setup.maxParallel.value
  }

  function CountOf(setup: Setup, job: nat): int {
    if job < |setup.jobs| then setup.jobs[job].deviceCount else 0
  }

  /**
   Start the job at the head of the queue if the cap and the free devices allow it.
   A child that cannot be spawned gives its devices back; a command that cannot be
   built does not.
   */
  function LaunchNext(setup: Setup, env: Env, st: St): (Launch, St) {
    if st.queue == [] || Capped(setup, st) || |st.free| < CountOf(setup, st.queue[0]) then (Blocked, st)
    else
      var head, count := st.queue[0], CountOf(setup, st.queue[0]);
      var ids, rest := PyTake(st.free, count), PyDrop(st.free, count);
      if !env.builds(head) then (Raised, st.(free := rest, queue := st.queue[1..]))
      else if env.spawns(head) then
        (Launched, st.(free := rest, queue := st.queue[1..], running := st.running + [Running(head, ids)],
                       log := Then(st.log, Started(head, ids))))
      else (Raised, st.(free := rest + ids, queue := st.queue[1..]))
  }

  /** Launch until the queue is empty or blocked, or a launch raises. */
  function FillNext(setup: Setup, env: Env, st: St): (Option<nat>, St)
    decreases |st.queue|
  {
    if st.queue == [] then (None, st)
    else
      var (r, st') := LaunchNext(setup, env, st);
      match r
      case Blocked => (None, st')
      case Raised => (Some(st.queue[0]), st')
      case Launched => FillNext(setup, env, st')
  }

  /** The first child that a round of polls starting at tick `clock` finds dead. */
  function FirstDead(env: Env, running: seq<Running>, clock: nat, from: nat): (i: nat)
    requires from <= |running|
    ensures from <= i <= |running|
    ensures i < |running| ==> env.death(running[i].job) <= clock + i
    ensures forall k :: from <= k < i ==> clock + k < env.death(running[k].job)
    decreases |running| - from
  {
    if from == |running| || env.death(running[from].job) <= clock + from then from
    else FirstDead(env, running, clock, from + 1)
  }

  function ResultOf(setup: Setup, r: Running): Result {
    Result(r.job, if r.job < |setup.jobs| then setup.jobs[r.job].name else "", setup.code(r.job), r.devices)
  }

  function CollectNext(setup: Setup, st: St, i: nat): St
    requires i < |st.running|
  {
    var res := ResultOf(setup, st.running[i]);
    st.(free := st.free + res.devices, running := RemoveAt(st.running, i), results := st.results + [res],
        failed := st.failed || res.code != 0, log := Then(st.log, Done(res, st.clock)))
  }

  /** Poll the children in start order, one tick each, and collect the first dead one. */
  function ReapNext(setup: Setup, env: Env, st: St): (Option<Result>, St) {
    var i := FirstDead(env, st.running, st.clock, 0);
    if i == |st.running| then (None, st.(clock := st.clock + i))
    else (Some(ResultOf(setup, st.running[i])), CollectNext(setup, st.(clock := st.clock + i + 1), i))
  }

  /** The search for a dead child has come to position `i`. */
  ghost predicate Searching(env: Env, st: St, i: nat) {
    i <= |st.running| && FirstDead(env, st.running, st.clock, 0) == FirstDead(env, st.running, st.clock, i)
  }

  lemma SearchOn(setup: Setup, env: Env, st: St, i: nat)
    requires Searching(env, st, i) && i < |st.running|
    ensures if env.death(st.running[i].job) <= st.clock + i
      then ReapNext(setup, env, st) ==
           (Some(ResultOf(setup, st.running[i])), CollectNext(setup, st.(clock := st.clock + i + 1), i))
      else Searching(env, st, i + 1)
  {
  }

  lemma SearchEnds(setup: Setup, env: Env, st: St)
    requires Searching(env, st, |st.running|)
    ensures ReapNext(setup, env, st) == (None, st.(clock := st.clock + |st.running|))
  {
  }

  function RefillNext(setup: Setup, env: Env, st: St): (Progress, St) {
    if setup.failFast && st.failed && !st.cancelled then (Again, st.(cancelled := true, queue := []))
    else
      var (raised, st') := FillNext(setup, env, st);
      (if raised.Some? then Threw(raised.value) else Again, st')
  }

  /** One pass of the loop; the callback on a result comes before the queue is cancelled or refilled. */
  function PassNext(setup: Setup, env: Env, st: St): (Progress, St) {
    var (r, st') := ReapNext(setup, env, if st.cancelled then st.(queue := []) else st);
    if r.Some? then
      if env.notifies(r.value.job) then RefillNext(setup, env, st') else (Interrupted(r.value.job), st')
    else if st'.running == [] then (Stuck, st')
    else (Again, st'.(clock := st'.clock + 1))
  }

  /** What the `finally` block does: after a cancellation it terminates the children that still run. */
  function CleanUpNext(st: St): (seq<nat>, St) {
    if st.cancelled && st.running != [] then
      (RunningJobs(st.running), st.(free := st.free + HeldList(st.running), running := []))
    else ([], st)
  }

  // -------------------------------------------------------------------------
  // Accounting
  // -------------------------------------------------------------------------

  /** Each device of the pool is free or held by a running job, counted with multiplicity. */
  ghost predicate Partitioned(free: seq<int>, running: seq<Running>, pool: seq<int>) {
    && |free| + InUse(running) == |pool|
    && forall d :: Copies(free, d) + Held(running, d) == Copies(pool, d)
  }

  ghost predicate EqualCopies(s: seq<int>, t: seq<int>) {
    forall d :: Copies(s, d) == Copies(t, d)
  }

  lemma CopiesSame(s: seq<int>, t: seq<int>)
    requires EqualCopies(s, t)
    ensures multiset(s) == multiset(t)
  {
    forall d ensures multiset(s)[d] == multiset(t)[d] {
      CopiesIsCount(s, d);
      CopiesIsCount(t, d);
      assert Copies(s, d) == Copies(t, d);
    }
  }

  lemma SameCopies(s: seq<int>, t: seq<int>)
    requires multiset(s) == multiset(t)
    ensures EqualCopies(s, t)
  {
    forall d ensures Copies(s, d) == Copies(t, d) {
      CopiesIsCount(s, d);
      CopiesIsCount(t, d);
    }
  }

  lemma SameLength(s: seq<int>, t: seq<int>)
    requires multiset(s) == multiset(t)
    ensures |s| == |t|
  {
    assert |multiset(s)| == |s| && |multiset(t)| == |t|;
  }

  /** The free devices and those of the running jobs are the pool, as multisets. */
  lemma PartitionedIff(free: seq<int>, running: seq<Running>, pool: seq<int>)
    ensures Partitioned(free, running, pool) <==> multiset(free + HeldList(running)) == multiset(pool)
  {
    var all := free + HeldList(running);
    forall d ensures Copies(all, d) == Copies(free, d) + Held(running, d) {
      HeldIsCount(running, d);
      CopiesAppend(free, HeldList(running), d);
    }
    HeldIsCount(running, 0);
    if Partitioned(free, running, pool) {
      CopiesSame(all, pool);
    }
    if multiset(all) == multiset(pool) {
      SameLength(all, pool);
      SameCopies(all, pool);
    }
  }

  /**
   The free list and the devices of the running jobs together are the pool;
   the log is legal and accounts for the running jobs and the results.
   */
  ghost predicate Balanced(setup: Setup, free: seq<int>, running: seq<Running>, results: seq<Result>, log: Log) {
    && Partitioned(free, running, setup.pool)
    && Legal(setup, log) && After(log).running == running && After(log).results == results
  }

  lemma StartPartitions(free: seq<int>, running: seq<Running>, pool: seq<int>, job: nat, ids: seq<int>)
    requires Partitioned(ids + free, running, pool)
    ensures Partitioned(free, running + [Running(job, ids)], pool) && Fits(running, ids, pool)
  {
    forall d
      ensures Copies(free, d) + Held(running + [Running(job, ids)], d) == Copies(pool, d)
      ensures Held(running, d) + Copies(ids, d) <= Copies(pool, d)
    {
      HeldStart(running, Running(job, ids), d);
      CopiesAppend(ids, free, d);
    }
    HeldStart(running, Running(job, ids), 0);
  }

  lemma DonePartitions(free: seq<int>, running: seq<Running>, pool: seq<int>, i: nat)
    requires Partitioned(free, running, pool) && i < |running|
    ensures Partitioned(free + running[i].devices, RemoveAt(running, i), pool)
  {
    forall d ensures Copies(free + running[i].devices, d) + Held(RemoveAt(running, i), d) == Copies(pool, d) {
      HeldRemove(running, i, d);
      CopiesAppend(free, running[i].devices, d);
    }
    HeldRemove(running, i, 0);
  }

  lemma RefundPartitions(free: seq<int>, running: seq<Running>, pool: seq<int>, ids: seq<int>)
    requires Partitioned(ids + free, running, pool)
    ensures Partitioned(free + ids, running, pool)
  {
    forall d ensures Copies(free + ids, d) + Held(running, d) == Copies(pool, d) {
      CopiesAppend(free, ids, d);
      CopiesAppend(ids, free, d);
    }
  }

  lemma StartBalances(
    setup: Setup, was: seq<int>, free: seq<int>, running: seq<Running>, results: seq<Result>, log: Log, ids: seq<int>)
    requires was == ids + free && Balanced(setup, was, running, results, log)
    requires After(log).started < |setup.jobs|
    requires setup.jobs[After(log).started].deviceCount <= |was|
    requires |ids| == Granted(|was|, setup.jobs[After(log).started].deviceCount)
    requires setup.maxParallel.Some? ==> |running| < setup.maxParallel.value
    requires !(setup.failFast && After(log).failed)
    ensures var job := After(log).started;
      && Balanced(setup, free, running + [Running(job, ids)], results, Then(log, Started(job, ids)))
      && After(Then(log, Started(job, ids))).started == job + 1
  {
    StartPartitions(free, running, setup.pool, After(log).started, ids);
    assert MayStart(setup, After(log), After(log).started, ids);
  }

  lemma RefundBalances(
    setup: Setup, was: seq<int>, free: seq<int>, running: seq<Running>, results: seq<Result>, log: Log, ids: seq<int>)
    requires was == ids + free && Balanced(setup, was, running, results, log)
    ensures Balanced(setup, free + ids, running, results, log)
  {
    RefundPartitions(free, running, setup.pool, ids);
  }

  lemma DoneBalances(
    setup: Setup, free: seq<int>, running: seq<Running>, results: seq<Result>, log: Log, i: nat, tick: nat)
    requires Balanced(setup, free, running, results, log) && i < |running|
    ensures IndexOf(running, running[i].job) == i
    ensures var res := ResultOf(setup, running[i]); var log' := Then(log, Done(res, tick));
      && Balanced(setup, free + running[i].devices, RemoveAt(running, i), results + [res], log')
      && After(log').started == After(log).started
  {
    var res := ResultOf(setup, running[i]);
    RunningInRange(setup, log, i);
    ExactlyOnce(setup, log);
    var k := IndexOf(running, running[i].job);
    if k != i {
      RunningOnce(After(log), k, i);
    }
    assert MayFinish(setup, After(log), res);
    DonePartitions(free, running, setup.pool, i);
  }

  lemma RunningInRange(setup: Setup, log: Log, i: nat)
    requires Legal(setup, log) && i < |After(log).running|
    ensures After(log).running[i].job < |setup.jobs|
  {
    ExactlyOnce(setup, log);
    var b := After(log);
    assert RunningJobs(b.running)[i] in multiset(RunningJobs(b.running));
    FirstJobsOnce(b.started, b.running[i].job);
  }

  lemma SliceSplits(s: seq<int>, count: int)
    requires count <= |s|
    ensures PyTake(s, count) + PyDrop(s, count) == s && |PyTake(s, count)| == Granted(|s|, count)
  {
  }

  lemma QueueNext(queue: seq<nat>, k: nat, n: nat)
    requires Remaining(queue, k, n) && queue != []
    ensures queue[0] == k < n && Remaining(queue[1..], k + 1, n)
  {
  }

  // -------------------------------------------------------------------------
  // What every step keeps
  // -------------------------------------------------------------------------

  /** Devices are handed out in turn, and no job is held back that could run. */
  ghost predicate Orderly(setup: Setup, log: Log) {
    InTurn(setup.pool, log) && Diligent(setup, log)
  }

  ghost predicate Good(setup: Setup, st: St) {
    && Balanced(setup, st.free, st.running, st.results, st.log) && Orderly(setup, st.log)
    && st.free == FreeList(setup.pool, st.log)
    && st.failed == After(st.log).failed
    && After(st.log).started <= |setup.jobs|
    && (st.cancelled ==> setup.failFast && st.failed)
  }

  /** The queue holds the jobs that are not started, unless it was cancelled. */
  ghost predicate Queued(setup: Setup, st: St) {
    if st.cancelled then st.queue == [] else Remaining(st.queue, After(st.log).started, |setup.jobs|)
  }

  predicate HeadBlocked(setup: Setup, st: St) {
    st.queue == [] || Capped(setup, st) || |st.free| < CountOf(setup, st.queue[0])
  }

  /** Nothing can be started now, and a failure under fail-fast has cancelled the queue. */
  ghost predicate Settled(setup: Setup, st: St) {
    HeadBlocked(setup, st) && (setup.failFast && st.failed ==> st.cancelled)
  }

  ghost predicate MayFill(setup: Setup, st: St) {
    Good(setup, st) && Queued(setup, st) && (st.queue != [] ==> !(setup.failFast && st.failed))
  }

  lemma StartGood(setup: Setup)
    ensures MayFill(setup, Start(setup))
  {
  }

  /** Starting `job`, the next one, raised; the log is that of the jobs before it. */
  ghost predicate Raises(setup: Setup, env: Env, st: St, job: nat) {
    && Legal(setup, st.log) && Orderly(setup, st.log) && job == After(st.log).started < |setup.jobs|
    && !(env.builds(job) && env.spawns(job)) && !st.cancelled
  }

  lemma LaunchGood(setup: Setup, env: Env, st: St)
    requires MayFill(setup, st)
    ensures var (r, st') := LaunchNext(setup, env, st);
      && (r.Blocked? ==> st' == st)
      && (r.Launched? ==> MayFill(setup, st') && |st'.queue| + 1 == |st.queue| && |st'.running| == |st.running| + 1)
      && (r.Raised? ==> st.queue != [] && Raises(setup, env, st', st.queue[0]))
      && (r.Raised? && env.builds(st.queue[0]) ==>
            && Balanced(setup, st'.free, st'.running, st'.results, st'.log) && st'.failed == After(st'.log).failed
            && multiset(st'.free) == multiset(FreeList(setup.pool, st'.log)))
  {
    if !HeadBlocked(setup, st) {
      QueueNext(st.queue, After(st.log).started, |setup.jobs|);
      var count := CountOf(setup, st.queue[0]);
      var ids, rest := PyTake(st.free, count), PyDrop(st.free, count);
      SliceSplits(st.free, count);
      if env.builds(st.queue[0]) && env.spawns(st.queue[0]) {
        StartBalances(setup, st.free, rest, st.running, st.results, st.log, ids);
      } else {
        RefundBalances(setup, st.free, rest, st.running, st.results, st.log, ids);
      }
    }
  }

  /**
   A start that raises leaves the pool whole if and only if the command could be
   built or the job was granted no device.
   */
  lemma RaiseKeepsPoolIff(setup: Setup, env: Env, st: St)
    requires MayFill(setup, st) && LaunchNext(setup, env, st).0.Raised?
    ensures st.queue != []
    ensures var st' := LaunchNext(setup, env, st).1;
      Partitioned(st'.free, st'.running, setup.pool) <==>
        env.builds(st.queue[0]) || Granted(|st.free|, CountOf(setup, st.queue[0])) == 0
  {
    LaunchGood(setup, env, st);
    SliceSplits(st.free, CountOf(setup, st.queue[0]));
    var ids := PyTake(st.free, CountOf(setup, st.queue[0]));
    if ids == [] {
      assert PyDrop(st.free, CountOf(setup, st.queue[0])) == st.free;
    }
  }

  /** One job on a pool of one device: if its command cannot be built, the device is lost. */
  lemma BuildLosesDevice(name: string, device: int, code: nat -> int, env: Env)
    requires !env.builds(0)
    ensures var setup := Setup([Job(name, 1)], [device], None, false, code);
      && LaunchNext(setup, env, Start(setup)).0.Raised?
      && LaunchNext(setup, env, Start(setup)).1.free == [] && LaunchNext(setup, env, Start(setup)).1.running == []
  {
    var setup := Setup([Job(name, 1)], [device], None, false, code);
    assert Start(setup).queue == [0];
    assert PyDrop([device], 1) == [];
  }

  /** What filling the free devices leads to. */
  ghost predicate Filled(setup: Setup, env: Env, st: St, raised: Option<nat>, st': St) {
    && st'.cancelled == st.cancelled && st'.failed == st.failed
    && (raised.None? ==> Good(setup, st') && Queued(setup, st') && HeadBlocked(setup, st'))
    && (raised.None? ==> |st'.queue| + |st'.running| == |st.queue| + |st.running|)
    && (raised.Some? ==> Raises(setup, env, st', raised.value))
  }

  lemma {:induction false} FillGood(setup: Setup, env: Env, st: St)
    requires MayFill(setup, st)
    ensures Filled(setup, env, st, FillNext(setup, env, st).0, FillNext(setup, env, st).1)
    decreases |st.queue|
  {
    if st.queue != [] {
      LaunchGood(setup, env, st);
      var (r, st') := LaunchNext(setup, env, st);
      if r.Launched? {
        FillGood(setup, env, st');
      }
    }
  }

  /** A blocked head means that nothing more can run. */
  lemma BlockedIsSaturated(setup: Setup, st: St)
    requires Good(setup, st) && Queued(setup, st) && Settled(setup, st)
    ensures Saturated(setup, After(st.log)) || (setup.failFast && After(st.log).failed)
  {
  }

  lemma CollectGood(setup: Setup, st: St, i: nat)
    requires Good(setup, st) && Queued(setup, st) && Settled(setup, st) && i < |st.running|
    ensures var st' := CollectNext(setup, st, i);
      && Good(setup, st') && Queued(setup, st') && st'.queue == st.queue && |st'.running| == |st.running| - 1
  {
    BlockedIsSaturated(setup, st);
    DoneBalances(setup, st.free, st.running, st.results, st.log, i, st.clock);
  }

  /** What a pass that has reaped a child leads to. */
  ghost predicate Refilled(setup: Setup, env: Env, st: St, r: Progress, st': St) {
    && !r.Stuck?
    && (r.Again? ==> Good(setup, st') && Queued(setup, st') && Settled(setup, st'))
    && (r.Again? ==> |st'.queue| + |st'.running| <= |st.queue| + |st.running|)
    && !r.Interrupted? && (r.Threw? ==> Raises(setup, env, st', r.job))
  }

  lemma CancelGood(setup: Setup, env: Env, st: St)
    requires Good(setup, st) && setup.failFast && st.failed
    ensures Refilled(setup, env, st, Again, st.(cancelled := true, queue := []))
  {
  }

  lemma FilledRefills(setup: Setup, env: Env, st: St, raised: Option<nat>, st': St)
    requires Filled(setup, env, st, raised, st') && !(setup.failFast && st.failed && !st.cancelled)
    ensures Refilled(setup, env, st, if raised.Some? then Threw(raised.value) else Again, st')
  {
  }

  lemma RefillGood(setup: Setup, env: Env, st: St)
    requires Good(setup, st) && Queued(setup, st)
    ensures Refilled(setup, env, st, RefillNext(setup, env, st).0, RefillNext(setup, env, st).1)
  {
    if setup.failFast && st.failed && !st.cancelled {
      CancelGood(setup, env, st);
    } else {
      FillGood(setup, env, st);
      FilledRefills(setup, env, st, FillNext(setup, env, st).0, FillNext(setup, env, st).1);
    }
  }

  // -------------------------------------------------------------------------
  // Termination
  // -------------------------------------------------------------------------

  /** No child is alive after this tick. */
  function LastDeath(env: Env, n: nat): (r: nat)
    ensures forall j :: 0 <= j < n ==> env.death(j) <= r
  {
    if n == 0 then 0
    else
      var r := LastDeath(env, n - 1);
      if env.death(n - 1) > r then env.death(n - 1) else r
  }

  function TicksLeft(env: Env, n: nat, clock: nat): nat {
    if clock < LastDeath(env, n) then LastDeath(env, n) - clock else 0
  }

  lemma TickCloser(env: Env, n: nat, job: nat, now: nat, later: nat)
    requires job < n && now < env.death(job) && now < later
    ensures TicksLeft(env, n, later) < TicksLeft(env, n, now)
  {
  }

  predicate Oversized(setup: Setup) {
    exists j :: 0 <= j < |setup.jobs| && setup.jobs[j].deviceCount > |setup.pool|
  }

  /** A cap of zero or less starts nothing. */
  predicate CanStart(setup: Setup) {
    setup.maxParallel.Some? ==> setup.maxParallel.value >= 1
  }

  /** What is left shrinks: jobs to start or reap, then ticks until the last child is dead. */
  ghost predicate Closer(setup: Setup, env: Env, st: St, st': St) {
    |st'.queue| + |st'.running| < |st.queue| + |st.running| ||
    (|st'.queue| + |st'.running| == |st.queue| + |st.running| &&
     TicksLeft(env, |setup.jobs|, st'.clock) < TicksLeft(env, |setup.jobs|, st.clock))
  }

  lemma WaitCloser(setup: Setup, env: Env, st: St)
    requires Good(setup, st) && st.running != [] && FirstDead(env, st.running, st.clock, 0) == |st.running|
    ensures TicksLeft(env, |setup.jobs|, st.clock + |st.running| + 1) < TicksLeft(env, |setup.jobs|, st.clock)
  {
    RunningInRange(setup, st.log, 0);
    TickCloser(env, |setup.jobs|, st.running[0].job, st.clock, st.clock + |st.running| + 1);
  }

  /** With nothing running, only the cap can keep the head of the queue from starting. */
  lemma OnlyCapBlocks(setup: Setup, st: St)
    requires Good(setup, st) && HeadBlocked(setup, st) && st.running == [] && st.queue != [] && !Oversized(setup)
    requires st.queue[0] < |setup.jobs|
    ensures !CanStart(setup)
  {
  }

  /**
   The callback raised on the result that ends the log; the batch is cancelled if
   and only if fail-fast had seen a failure before that result.
   */
  ghost predicate Halted(setup: Setup, env: Env, st: St, job: nat) {
    && Good(setup, st) && st.log.Then? && st.log.last.Done? && st.log.last.res.job == job && !env.notifies(job)
    && (st.cancelled <==> setup.failFast && After(st.log.before).failed)
  }

  /** What a pass leads to. */
  ghost predicate Passed(setup: Setup, env: Env, st: St, r: Progress, st': St) {
    && (r.Again? ==> Good(setup, st') && Queued(setup, st') && Settled(setup, st') && Closer(setup, env, st, st'))
    && (r.Stuck? ==> Good(setup, st') && st'.running == [] && !CanStart(setup))
    && (r.Threw? ==> Raises(setup, env, st', r.job))
    && (r.Interrupted? ==> Halted(setup, env, st', r.job))
  }

  lemma HaltPasses(setup: Setup, env: Env, st: St, i: nat)
    requires Good(setup, st) && Queued(setup, st) && Settled(setup, st) && i < |st.running|
    requires !env.notifies(st.running[i].job)
    ensures var st' := CollectNext(setup, st.(clock := st.clock + i + 1), i);
      Passed(setup, env, st, Interrupted(st.running[i].job), st')
  {
    CollectGood(setup, st.(clock := st.clock + i + 1), i);
  }

  lemma ReapPasses(setup: Setup, env: Env, st: St, st1: St, i: nat, r: Progress, st': St)
    requires Good(setup, st) && Queued(setup, st) && Settled(setup, st)
    requires i < |st.running| && st1 == st.(clock := st.clock + i + 1)
    requires Refilled(setup, env, CollectNext(setup, st1, i), r, st')
    ensures Passed(setup, env, st, r, st')
  {
    CollectGood(setup, st1, i);
  }

  lemma WaitPasses(setup: Setup, env: Env, st: St)
    requires Good(setup, st) && Queued(setup, st) && Settled(setup, st) && st.running != []
    requires FirstDead(env, st.running, st.clock, 0) == |st.running|
    ensures Passed(setup, env, st, Again, st.(clock := st.clock + |st.running| + 1))
  {
    WaitCloser(setup, env, st);
  }

  lemma StuckPasses(setup: Setup, env: Env, st: St)
    requires Good(setup, st) && Queued(setup, st) && Settled(setup, st) && !Oversized(setup)
    requires st.running == [] && st.queue != []
    ensures Passed(setup, env, st, Stuck, st)
  {
    QueueNext(st.queue, After(st.log).started, |setup.jobs|);
    OnlyCapBlocks(setup, st);
  }

  /** The three ways a pass can go; the queue of a cancelled batch is empty already. */
  lemma PassCases(setup: Setup, env: Env, st: St, i: nat)
    requires Queued(setup, st) && i == FirstDead(env, st.running, st.clock, 0)
    ensures i < |st.running| ==>
      var st' := CollectNext(setup, st.(clock := st.clock + i + 1), i);
      PassNext(setup, env, st) ==
        if env.notifies(st.running[i].job) then RefillNext(setup, env, st') else (Interrupted(st.running[i].job), st')
    ensures i == |st.running| && st.running == [] ==> PassNext(setup, env, st) == (Stuck, st)
    ensures i == |st.running| && st.running != [] ==>
      PassNext(setup, env, st) == (Again, st.(clock := st.clock + |st.running| + 1))
  {
  }

  lemma ReapGood(setup: Setup, env: Env, st: St, i: nat)
    requires Good(setup, st) && Queued(setup, st) && Settled(setup, st)
    requires i < |st.running| && i == FirstDead(env, st.running, st.clock, 0)
    ensures Passed(setup, env, st, PassNext(setup, env, st).0, PassNext(setup, env, st).1)
  {
    PassCases(setup, env, st, i);
    if env.notifies(st.running[i].job) {
      var st1 := st.(clock := st.clock + i + 1);
      CollectGood(setup, st1, i);
      var st2 := CollectNext(setup, st1, i);
      RefillGood(setup, env, st2);
      ReapPasses(setup, env, st, st1, i, RefillNext(setup, env, st2).0, RefillNext(setup, env, st2).1);
    } else {
      HaltPasses(setup, env, st, i);
    }
  }

  lemma PassGood(setup: Setup, env: Env, st: St)
    requires Good(setup, st) && Queued(setup, st) && Settled(setup, st) && !Oversized(setup)
    requires st.running != [] || st.queue != []
    ensures Passed(setup, env, st, PassNext(setup, env, st).0, PassNext(setup, env, st).1)
  {
    var i := FirstDead(env, st.running, st.clock, 0);
    if i < |st.running| {
      ReapGood(setup, env, st, i);
    } else {
      PassCases(setup, env, st, i);
      if st.running == [] {
        StuckPasses(setup, env, st);
      } else {
        WaitPasses(setup, env, st);
      }
    }
  }

  /** With a cap below one nothing can ever start. */
  lemma {:induction false} NothingStarts(setup: Setup, log: Log)
    requires Legal(setup, log) && setup.maxParallel.Some? && setup.maxParallel.value <= 0
    ensures log == Empty
    decreases log
  {
    if log.Then? {
      NothingStarts(setup, log.before);
    }
  }

  // -------------------------------------------------------------------------
  // Time
  // -------------------------------------------------------------------------

  /** The log keeps time, and the clock is not behind it. */
  ghost predicate Punctual(env: Env, st: St) {
    Timely(env.death, st.log) && LastTick(st.log) <= st.clock
  }

  lemma {:induction false} FillPunctual(setup: Setup, env: Env, st: St)
    requires Punctual(env, st)
    ensures Punctual(env, FillNext(setup, env, st).1)
    decreases |st.queue|
  {
    if st.queue != [] {
      var (r, st') := LaunchNext(setup, env, st);
      if r.Launched? {
        FillPunctual(setup, env, st');
      }
    }
  }

  lemma CollectPunctual(setup: Setup, env: Env, st: St, i: nat)
    requires Punctual(env, st) && Good(setup, st) && i < |st.running| && i == FirstDead(env, st.running, st.clock, 0)
    ensures Punctual(env, CollectNext(setup, st.(clock := st.clock + i + 1), i))
  {
    DoneBalances(setup, st.free, st.running, st.results, st.log, i, st.clock + i + 1);
    assert FoundDead(env.death, st.running, st.running[i].job, st.clock + i + 1);
  }

  lemma RefillPunctual(setup: Setup, env: Env, st: St)
    requires Punctual(env, st)
    ensures Punctual(env, RefillNext(setup, env, st).1)
  {
    FillPunctual(setup, env, st);
  }

  lemma PassPunctual(setup: Setup, env: Env, st: St)
    requires Good(setup, st) && Queued(setup, st) && Punctual(env, st)
    ensures Punctual(env, PassNext(setup, env, st).1)
  {
    var i := FirstDead(env, st.running, st.clock, 0);
    PassCases(setup, env, st, i);
    if i < |st.running| {
      CollectPunctual(setup, env, st, i);
      RefillPunctual(setup, env, CollectNext(setup, st.(clock := st.clock + i + 1), i));
    }
  }

  /** The clean-up gives back the devices of the children it terminates. */
  lemma CleanUpKeepsPool(setup: Setup, st: St)
    requires Partitioned(st.free, st.running, setup.pool)
    ensures var st' := CleanUpNext(st).1; Partitioned(st'.free, st'.running, setup.pool)
  {
    var st' := CleanUpNext(st).1;
    PartitionedIff(st.free, st.running, setup.pool);
    PartitionedIff(st'.free, st'.running, setup.pool);
    assert st'.free + HeldList([]) == st'.free;
  }

  // -------------------------------------------------------------------------
  // A run in which a child is terminated
  // -------------------------------------------------------------------------

  /** Three jobs on three devices under fail-fast; job 0 fails. */
  function FailingBatch(): Setup {
    Setup([Job("a", 1), Job("b", 1), Job("c", 1)], [0, 1, 2], None, true, (j: nat) => if j == 0 then 1 else 0)
  }

  /** Jobs 0 and 1 end at once, job 2 runs on, and the callback raises on the result of job 1. */
  predicate RaisesOnSecond(env: Env) {
    && env.builds(0) && env.builds(1) && env.builds(2) && env.spawns(0) && env.spawns(1) && env.spawns(2)
    && env.death(0) == env.death(1) == 0 && env.death(2) > 9 && env.notifies(0) && !env.notifies(1)
  }

  lemma AllStart(env: Env) returns (st: St)
    requires RaisesOnSecond(env)
    ensures FillNext(FailingBatch(), env, Start(FailingBatch())) == (None, st)
    ensures st.running == [Running(0, [0]), Running(1, [1]), Running(2, [2])] && st.queue == [] && st.clock == 0
    ensures !st.failed && !st.cancelled
  {
    var setup := FailingBatch();
    var st0 := Start(setup);
    assert PyTake([0, 1, 2], 1) == [0] && PyTake([1, 2], 1) == [1] && PyTake([2], 1) == [2];
    var (r1, st1) := LaunchNext(setup, env, st0);
    assert st1.queue == [1, 2] && st1.free == [1, 2] && st1.running == [Running(0, [0])];
    var (r2, st2) := LaunchNext(setup, env, st1);
    assert st2.queue == [2] && st2.free == [2] && st2.running == [Running(0, [0]), Running(1, [1])];
    var (r3, st3) := LaunchNext(setup, env, st2);
    assert st3.queue == [] && st3.free == [];
    st := st3;
    assert FillNext(setup, env, st3) == (None, st3);
    assert FillNext(setup, env, st2) == (None, st3);
    assert FillNext(setup, env, st1) == (None, st3);
  }

  /** The second pass is interrupted while job 2 runs, and the clean-up terminates it. */
  lemma TerminatesTheThird(env: Env) returns (st: St)
    requires RaisesOnSecond(env)
    ensures FillNext(FailingBatch(), env, Start(FailingBatch())) == (None, st)
    ensures var (r1, st1) := PassNext(FailingBatch(), env, st);
      var (r2, st2) := PassNext(FailingBatch(), env, st1);
      r1.Again? && r2 == Interrupted(1) && CleanUpNext(st2).0 == [2]
  {
    var setup := FailingBatch();
    st := AllStart(env);
    assert FirstDead(env, st.running, 0, 0) == 0;
    var st1 := CollectNext(setup, st.(clock := 1), 0).(cancelled := true, queue := []);
    assert PassNext(setup, env, st) == (Again, st1);
    assert st1.running == [Running(1, [1]), Running(2, [2])];
    assert FirstDead(env, st1.running, 1, 0) == 0;
    var st2 := CollectNext(setup, st1.(clock := 2), 0);
    assert PassNext(setup, env, st1) == (Interrupted(1), st2);
    assert st2.running == [Running(2, [2])];
  }
}
