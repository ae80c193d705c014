/**
 The observable behaviour of the device-aware job scheduler: a log of job
 starts and job completions.  A log is legal when every event is allowed by
 the events before it.  The lemmas say what holds at every point of every legal
 log.
 */
module JobLog {
  import opened Arithmetic

  datatype Job = Job(name: string, deviceCount: int)

  // In the following, `job` is the position in the job list, and `tick` is the time at which a result is recorded.
  datatype Running = Running(job: nat, devices: seq<int>)

  datatype Result = Result(job: nat, name: string, code: int, devices: seq<int>)

  datatype Event = Started(job: nat, devices: seq<int>) | Done(res: Result, tick: nat)

  datatype Log = Empty | Then(before: Log, last: Event)

  datatype Setup = Setup(
    jobs: seq<Job>,
    pool: seq<int>,
    maxParallel: Option<int>,
    failFast: bool,
    code: nat -> int)         // exit code of each job

  /** What a log has led to. */
  datatype Book = Book(
    started: nat,               // number of jobs started
    running: seq<Running>,      // jobs in flight, in start order
    results: seq<Result>,
    failed: bool)               // some exit code was not zero

  /** Position of `job` among the running jobs, or their number. */
  function IndexOf(running: seq<Running>, job: nat): (i: nat)
    ensures i <= |running|
    ensures i < |running| ==> running[i].job == job
    ensures forall k :: 0 <= k < i ==> running[k].job != job
  {
    if running == [] then 0
    else
      var i := IndexOf(running[..|running| - 1], job);
      if i < |running| - 1 || running[|running| - 1].job == job then i else |running|
  }

  function Record(b: Book, e: Event): Book {
    match e
    case Started(job, devices) => b.(started := b.started + 1, running := b.running + [Running(job, devices)])
    case Done(res, _) =>
      b.(running := RemoveAt(b.running, IndexOf(b.running, res.job)), results := b.results + [res],
         failed := b.failed || res.code != 0)
  }

  function After(log: Log): Book {
    match log
    case Empty => Book(0, [], [], false)
    case Then(before, e) => Record(After(before), e)
  }

  /** How often device `d` occurs in a list. */
  function Copies(s: seq<int>, d: int): nat {
    if s == [] then 0 else Copies(s[..|s| - 1], d) + if s[|s| - 1] == d then 1 else 0
  }

  /** How many copies of device `d` the running jobs hold. */
  function Held(running: seq<Running>, d: int): nat {
    if running == [] then 0 else Held(running[..|running| - 1], d) + Copies(running[|running| - 1].devices, d)
  }

  /** How many devices the running jobs hold. */
  function InUse(running: seq<Running>): nat {
    if running == [] then 0 else InUse(running[..|running| - 1]) + |running[|running| - 1].devices|
  }

  /** The running jobs and `devices` together hold nothing that is not in the pool. */
  ghost predicate Fits(running: seq<Running>, devices: seq<int>, pool: seq<int>) {
    forall d :: Held(running, d) + Copies(devices, d) <= Copies(pool, d)
  }

  /** Devices granted from `free` free ones: a negative count leaves that many at the end of the free list. */
  function Granted(free: int, count: int): int {
    if count >= 0 then count else if free + count >= 0 then free + count else 0
  }

  /** Jobs start in list order, on free devices, below the cap, and not after a failure under fail-fast. */
  ghost predicate MayStart(s: Setup, b: Book, job: nat, devices: seq<int>) {
    && job == b.started < |s.jobs|
    && s.jobs[job].deviceCount <= |s.pool| - InUse(b.running)
    && |devices| == Granted(|s.pool| - InUse(b.running), s.jobs[job].deviceCount)
    && Fits(b.running, devices, s.pool)
    && (s.maxParallel.Some? ==> |b.running| < s.maxParallel.value)
    && !(s.failFast && b.failed)
  }

  /** A result belongs to a running job and reports its devices and its exit code. */
  predicate MayFinish(s: Setup, b: Book, res: Result) {
    && res.job < |s.jobs| && Running(res.job, res.devices) in b.running
    && res.name == s.jobs[res.job].name && res.code == s.code(res.job)
  }

  ghost predicate Allowed(s: Setup, b: Book, e: Event) {
    match e
    case Started(job, devices) => MayStart(s, b, job, devices)
    case Done(res, _) => MayFinish(s, b, res)
  }

  ghost predicate Legal(s: Setup, log: Log) {
    match log
    case Empty => true
    case Then(before, e) => Legal(s, before) && Allowed(s, After(before), e)
  }

  /** `early` is what the log was at some earlier point. */
  predicate PrefixOf(early: Log, log: Log) {
    early == log || (log.Then? && PrefixOf(early, log.before))
  }

  lemma {:induction false} LegalPrefix(s: Setup, early: Log, log: Log)
    requires Legal(s, log) && PrefixOf(early, log)
    ensures Legal(s, early)
    decreases log
  {
    if early != log {
      LegalPrefix(s, early, log.before);
    }
  }

  // -------------------------------------------------------------------------
  // Every job has one place
  // -------------------------------------------------------------------------

  function RunningJobs(running: seq<Running>): seq<nat> {
    seq(|running|, i requires 0 <= i < |running| => running[i].job)
  }

  function ResultJobs(results: seq<Result>): seq<nat> {
    seq(|results|, i requires 0 <= i < |results| => results[i].job)
  }

  function FirstJobs(n: nat): seq<nat> {
    seq(n, i requires 0 <= i < n => i)
  }

  /** Each started job is running or has a result, exactly once; no other job appears. */
  ghost predicate OnePlace(b: Book) {
    multiset(RunningJobs(b.running)) + multiset(ResultJobs(b.results)) == multiset(FirstJobs(b.started))
  }

  lemma {:induction false} FirstJobsOnce(n: nat, x: nat)
    ensures multiset(FirstJobs(n))[x] == if x < n then 1 else 0
  {
    if n > 0 {
      FirstJobsOnce(n - 1, x);
      assert FirstJobs(n) == FirstJobs(n - 1) + [n - 1];
    }
  }

  /** No two running jobs are the same. */
  lemma RunningOnce(b: Book, i: nat, k: nat)
    requires OnePlace(b) && i < k < |b.running|
    ensures b.running[i].job != b.running[k].job
  {
    var jobs := RunningJobs(b.running);
    if jobs[i] == jobs[k] {
      assert jobs == jobs[..k] + [jobs[k]] + jobs[k + 1..];
      assert jobs[i] in multiset(jobs[..k]);
      FirstJobsOnce(b.started, jobs[i]);
    }
  }

  lemma OnePlaceStart(s: Setup, b: Book, job: nat, devices: seq<int>)
    requires OnePlace(b) && MayStart(s, b, job, devices)
    ensures OnePlace(Record(b, Started(job, devices)))
  {
    var b' := Record(b, Started(job, devices));
    assert RunningJobs(b'.running) == RunningJobs(b.running) + [job];
    assert FirstJobs(b'.started) == FirstJobs(b.started) + [job];
  }

  lemma OnePlaceDone(s: Setup, b: Book, res: Result)
    requires OnePlace(b) && MayFinish(s, b, res)
    ensures forall tick :: OnePlace(Record(b, Done(res, tick)))
  {
    var i := IndexOf(b.running, res.job);
    var b' := Record(b, Done(res, 0));
    assert i < |b.running|;
    var jobs := RunningJobs(b.running);
    assert RunningJobs(b'.running) == RemoveAt(jobs, i);
    RemoveMultiset(jobs, i);
    assert ResultJobs(b'.results) == ResultJobs(b.results) + [res.job];
  }

  /** At every point of a legal log, each started job is running or finished, exactly once. */
  lemma {:induction false} ExactlyOnce(s: Setup, log: Log)
    requires Legal(s, log)
    ensures OnePlace(After(log)) && After(log).started <= |s.jobs|
    decreases log
  {
    if log.Then? {
      var before := log.before;
      ExactlyOnce(s, before);
      match log.last {
        case Started(job, devices) => OnePlaceStart(s, After(before), job, devices);
        case Done(res, _) => OnePlaceDone(s, After(before), res);
      }
    }
  }

  /** When nothing runs any more, the results are those of the started jobs, one each. */
  lemma OneResultEach(s: Setup, log: Log, j: nat)
    requires Legal(s, log) && After(log).running == []
    ensures multiset(ResultJobs(After(log).results))[j] == if j < After(log).started then 1 else 0
  {
    ExactlyOnce(s, log);
    FirstJobsOnce(After(log).started, j);
  }

  // -------------------------------------------------------------------------
  // Devices
  // -------------------------------------------------------------------------

  lemma {:induction false} CopiesIsCount(s: seq<int>, d: int)
    ensures Copies(s, d) == multiset(s)[d]
    decreases |s|
  {
    if s != [] {
      CopiesIsCount(s[..|s| - 1], d);
      assert s == s[..|s| - 1] + [s[|s| - 1]];
    }
  }

  lemma {:induction false} CopiesAppend(s: seq<int>, t: seq<int>, d: int)
    ensures Copies(s + t, d) == Copies(s, d) + Copies(t, d)
    decreases |t|
  {
    if t == [] {
      assert s + t == s;
    } else {
      CopiesAppend(s, t[..|t| - 1], d);
      assert (s + t)[..|s + t| - 1] == s + t[..|t| - 1];
    }
  }

  /** The devices of all running jobs in one list. */
  function HeldList(running: seq<Running>): seq<int> {
    if running == [] then [] else HeldList(running[..|running| - 1]) + running[|running| - 1].devices
  }

  lemma {:induction false} HeldIsCount(running: seq<Running>, d: int)
    ensures Held(running, d) == Copies(HeldList(running), d) && InUse(running) == |HeldList(running)|
    decreases |running|
  {
    if running != [] {
      var n := |running| - 1;
      HeldIsCount(running[..n], d);
      CopiesAppend(HeldList(running[..n]), running[n].devices, d);
    }
  }

  lemma HeldStart(running: seq<Running>, r: Running, d: int)
    ensures Held(running + [r], d) == Held(running, d) + Copies(r.devices, d)
    ensures InUse(running + [r]) == InUse(running) + |r.devices|
  {
    assert (running + [r])[..|running|] == running;
  }

  lemma {:induction false} HeldRemove(running: seq<Running>, i: nat, d: int)
    requires i < |running|
    ensures Held(RemoveAt(running, i), d) + Copies(running[i].devices, d) == Held(running, d)
    ensures InUse(RemoveAt(running, i)) + |running[i].devices| == InUse(running)
    decreases |running|
  {
    var n := |running| - 1;
    var r := RemoveAt(running, i);
    if i == n {
      assert r == running[..n];
    } else {
      HeldRemove(running[..n], i, d);
      assert r[..|r| - 1] == RemoveAt(running[..n], i);
      assert r[|r| - 1] == running[n];
    }
  }

  /** At every point of a legal log, the devices in use fit into the pool and the cap is respected. */
  lemma {:induction false} PoolRespected(s: Setup, log: Log, d: int)
    requires Legal(s, log)
    ensures Held(After(log).running, d) <= Copies(s.pool, d)
    ensures s.maxParallel.Some? && After(log).running != [] ==> |After(log).running| <= s.maxParallel.value
  {
    if log.Then? {
      PoolRespected(s, log.before, d);
      var b := After(log.before);
      match log.last {
        case Started(job, devices) => HeldStart(b.running, Running(job, devices), d);
        case Done(res, _) => HeldRemove(b.running, IndexOf(b.running, res.job), d);
      }
    }
  }

  lemma {:induction false} DistinctCount(pool: seq<int>, d: int)
    requires Distinct(pool)
    ensures Copies(pool, d) <= 1 && (d !in pool ==> Copies(pool, d) == 0)
    decreases |pool|
  {
    if pool != [] {
      DistinctCount(pool[..|pool| - 1], d);
    }
  }

  lemma {:induction false} MemberCount(s: seq<int>, d: int)
    requires d in s
    ensures Copies(s, d) >= 1
    decreases |s|
  {
    if d != s[|s| - 1] {
      MemberCount(s[..|s| - 1], d);
    }
  }

  lemma HeldByTwo(running: seq<Running>, i: nat, k: nat, d: int)
    requires i < k < |running|
    ensures Copies(running[i].devices, d) + Copies(running[k].devices, d) <= Held(running, d)
  {
    HeldRemove(running, k, d);
    var r := RemoveAt(running, k);
    assert r[i] == running[i];
    HeldRemove(r, i, d);
  }

  /** With distinct device ids, two running jobs never share a device. */
  lemma NoSharedDevice(s: Setup, log: Log, i: nat, k: nat, d: int)
    requires Legal(s, log) && Distinct(s.pool) && i < k < |After(log).running|
    ensures !(d in After(log).running[i].devices && d in After(log).running[k].devices)
  {
    var running := After(log).running;
    PoolRespected(s, log, d);
    HeldByTwo(running, i, k, d);
    DistinctCount(s.pool, d);
    if d in running[i].devices && d in running[k].devices {
      MemberCount(running[i].devices, d);
      MemberCount(running[k].devices, d);
    }
  }

  // -------------------------------------------------------------------------
  // Fail-fast
  // -------------------------------------------------------------------------

  /** Some result has a non-zero exit code. */
  predicate AnyFailure(results: seq<Result>) {
    exists i :: 0 <= i < |results| && results[i].code != 0
  }

  lemma {:induction false} FailedIff(log: Log)
    ensures After(log).failed <==> AnyFailure(After(log).results)
  {
    if log.Then? {
      FailedIff(log.before);
      var was, now := After(log.before).results, After(log).results;
      assert was <= now;
      if i :| 0 <= i < |now| && now[i].code != 0 {
        assert i < |was| ==> was[i].code != 0;
      }
      if i :| 0 <= i < |was| && was[i].code != 0 {
        assert now[i].code != 0;
      }
      if log.last.Done? {
        assert now[|was|] == log.last.res;
      }
    }
  }

  lemma {:induction false} FailureStays(early: Log, log: Log)
    requires PrefixOf(early, log) && After(early).failed
    ensures After(log).failed
    decreases log
  {
    if early != log {
      FailureStays(early, log.before);
    }
  }

  /** Under fail-fast, nothing starts after the first failed result. */
  lemma NoStartAfterFailure(s: Setup, log: Log, p: Log, res: Result, tick: nat, q: Log, e: Event)
    requires Legal(s, log) && s.failFast
    requires PrefixOf(Then(p, Done(res, tick)), q) && res.code != 0 && PrefixOf(Then(q, e), log)
    ensures e.Done?
  {
    LegalPrefix(s, Then(q, e), log);
    FailureStays(Then(p, Done(res, tick)), q);
  }

  // -------------------------------------------------------------------------
  // Results tell the truth
  // -------------------------------------------------------------------------

  /** Job `job` was started on `devices`. */
  predicate StartedOn(log: Log, job: nat, devices: seq<int>) {
    log.Then? && (log.last == Started(job, devices) || StartedOn(log.before, job, devices))
  }

  lemma {:induction false} RunningWasStarted(s: Setup, log: Log, k: nat)
    requires Legal(s, log) && k < |After(log).running|
    ensures StartedOn(log, After(log).running[k].job, After(log).running[k].devices)
    decreases log
  {
    if log.Then? {
      var was, now := After(log.before).running, After(log).running;
      match log.last {
        case Started(job, devices) =>
          if k < |was| {
            RunningWasStarted(s, log.before, k);
          }
        case Done(res, _) =>
          var i := IndexOf(was, res.job);
          assert now[k] == if k < i then was[k] else was[k + 1];
          RunningWasStarted(s, log.before, if k < i then k else k + 1);
      }
    }
  }

  /** Every result reports the name and the exit code of its job and the devices on which it was started. */
  lemma {:induction false} ResultIsTrue(s: Setup, log: Log, i: nat)
    requires Legal(s, log) && i < |After(log).results|
    ensures var res := After(log).results[i];
      && res.job < |s.jobs| && res.name == s.jobs[res.job].name && res.code == s.code(res.job)
      && StartedOn(log, res.job, res.devices)
    decreases log
  {
    var was := After(log.before).results;
    if i < |was| {
      ResultIsTrue(s, log.before, i);
    } else {
      var res := log.last.res;
      var k :| 0 <= k < |After(log.before).running| && After(log.before).running[k] == Running(res.job, res.devices);
      RunningWasStarted(s, log.before, k);
    }
  }

  /** A job is started on as many devices as it asks for; a negative number means all free devices but that many. */
  lemma {:induction false} GetsItsDevices(s: Setup, log: Log, job: nat, devices: seq<int>)
    requires Legal(s, log) && StartedOn(log, job, devices)
    ensures job < |s.jobs| && (s.jobs[job].deviceCount >= 0 ==> |devices| == s.jobs[job].deviceCount)
    ensures s.jobs[job].deviceCount < 0 ==> |devices| == 0 || |devices| <= |s.pool| + s.jobs[job].deviceCount
    decreases log
  {
    if log.last != Started(job, devices) {
      GetsItsDevices(s, log.before, job, devices);
    }
  }

  // -------------------------------------------------------------------------
  // Diligence, turns and time
  // -------------------------------------------------------------------------

  /** Nothing more can run: all jobs are started, the cap is reached, or the next job does not fit. */
  ghost predicate Saturated(s: Setup, b: Book) {
    || b.started >= |s.jobs|
    || (s.maxParallel.Some? && |b.running| >= s.maxParallel.value)
    || s.jobs[b.started].deviceCount > |s.pool| - InUse(b.running)
  }

  /** No result is awaited while a job could be started, unless fail-fast has stopped the batch. */
  ghost predicate Diligent(s: Setup, log: Log) {
    log.Then? ==>
      && Diligent(s, log.before)
      && (log.last.Done? ==> Saturated(s, After(log.before)) || (s.failFast && After(log.before).failed))
  }

  lemma {:induction false} DiligentPrefix(s: Setup, early: Log, log: Log)
    requires Diligent(s, log) && PrefixOf(early, log)
    ensures Diligent(s, early)
    decreases log
  {
    if early != log {
      DiligentPrefix(s, early, log.before);
    }
  }

  /**
   The scheduler is work-conserving: whenever a result comes in and no failure has
   stopped the batch, all jobs had been started, or the cap was reached, or the
   next job asked for more devices than were free.
   */
  lemma WorkConserving(s: Setup, log: Log, early: Log, res: Result, tick: nat)
    requires Diligent(s, log) && PrefixOf(Then(early, Done(res, tick)), log)
    requires s.failFast ==> forall i :: 0 <= i < |After(early).results| ==> After(early).results[i].code == 0
    ensures var b := After(early);
      || b.started >= |s.jobs|
      || (s.maxParallel.Some? && |b.running| >= s.maxParallel.value)
      || s.jobs[b.started].deviceCount > |s.pool| - InUse(b.running)
  {
    DiligentPrefix(s, Then(early, Done(res, tick)), log);
    FailedIff(early);
  }

  /** The free devices in the order in which they are handed out: first in, first out. */
  function FreeList(pool: seq<int>, log: Log): seq<int> {
    match log
    case Empty => pool
    case Then(before, Started(_, devices)) =>
      var free := FreeList(pool, before);
      if |devices| <= |free| then free[|devices|..] else []
    case Then(before, Done(res, _)) => FreeList(pool, before) + res.devices
  }

  /** Every job is started on the devices that have been free for the longest time. */
  ghost predicate InTurn(pool: seq<int>, log: Log) {
    log.Then? ==>
      && InTurn(pool, log.before)
      && (log.last.Started? ==> log.last.devices <= FreeList(pool, log.before))
  }

  /** Time of the last result. */
  function LastTick(log: Log): nat {
    match log
    case Empty => 0
    case Then(before, Started(_, _)) => LastTick(before)
    case Then(_, Done(_, tick)) => tick
  }

  /**
   The children are polled in start order, one per tick: the reported child had died
   when it was polled, and those before it had not when they were.
   */
  ghost predicate FoundDead(death: nat -> nat, running: seq<Running>, job: nat, tick: nat) {
    var i := IndexOf(running, job);
    i < tick && death(job) < tick &&
    forall k :: 0 <= k < i ==> tick <= death(running[k].job) + (i - k)
  }

  ghost predicate Timely(death: nat -> nat, log: Log) {
    log.Then? ==>
      && Timely(death, log.before)
      && (log.last.Done? ==>
            && LastTick(log.before) < log.last.tick
            && FoundDead(death, After(log.before).running, log.last.res.job, log.last.tick))
  }
}
