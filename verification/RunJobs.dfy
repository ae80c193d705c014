/**
 The scheduler object of `run_jobs` and its loop.  Each method is proved against
 the step function it performs; what every step keeps is proved of those.
 */
module RunJobs {
  import opened JobLog
  import opened JobSteps
  import opened Arithmetic

  datatype Outcome =
    | Rejected                          // a job asks for more devices than the pool has
    | StartError(job: nat)              // building the command or spawning the child raised
    | CallbackError(job: nat)           // the callback on the result of this job raised
    | Finished(results: seq<Result>)

  class RunState {
    const setup: Setup
    const env: Env
    var free: seq<int>
    var queue: seq<nat>
    var running: seq<Running>
    var results: seq<Result>
    var failed: bool
    var cancelled: bool
    var clock: nat
    var log: Log

    constructor (setup: Setup, env: Env)
      ensures this.setup == setup && this.env == env && Now() == Start(setup)
    {
      this.setup := setup;
      this.env := env;
      free := setup.pool;
      queue := FirstJobs(|setup.jobs|);
      running := [];
      results := [];
      failed := false;
      cancelled := false;
      clock := 0;
      log := Empty;
    }

    function Now(): St
      reads this
    {
      St(free, queue, running, results, failed, cancelled, clock, log)
    }

    method AcquireDevices(count: int) returns (r: Option<seq<int>>)
      modifies this`free
      ensures r.None? <==> |old(free)| < count
      ensures r.None? ==> free == old(free)
      ensures r.Some? ==> r.value + free == old(free)
      ensures r.Some? && count >= 0 ==> |r.value| == count
      ensures r.Some? && count < 0 ==> |r.value| == if |old(free)| + count >= 0 then |old(free)| + count else 0
      ensures r.Some? ==> r.value == PyTake(old(free), count) && free == PyDrop(old(free), count)
    {
      if |free| < count {
        return None;
      }
      SliceSplits(free, count);
      r := Some(PyTake(free, count));
      free := PyDrop(free, count);
    }

    method ReleaseDevices(ids: seq<int>)
      modifies this`free
      ensures free == old(free) + ids
    {
      free := free + ids;
    }

    method TryLaunchHead() returns (r: Launch)
      modifies this
      ensures (r, Now()) == LaunchNext(setup, env, old(Now()))
    {
      if queue == [] {
        return Blocked;
      }
      if setup.maxParallel.Some? && |running| >= setup.maxParallel.value {
        return Blocked;
      }
      var head := queue[0];
      var grant := AcquireDevices(CountOf(setup, head));
      if grant.None? {
        return Blocked;
      }
      queue := queue[1..];
      if !env.builds(head) {
        return Raised;
      }
      if !env.spawns(head) {
        ReleaseDevices(grant.value);
        return Raised;
      }
      running := running + [Running(head, grant.value)];
      log := Then(log, Started(head, grant.value));
      return Launched;
    }

    method Fill() returns (raised: Option<nat>)
      modifies this
      ensures (raised, Now()) == FillNext(setup, env, old(Now()))
    {
      while queue != []
        invariant FillNext(setup, env, Now()) == FillNext(setup, env, old(Now()))
        decreases |queue|
      {
        var head := queue[0];
        var r := TryLaunchHead();
        if r.Blocked? {
          return None;
        } else if r.Raised? {
          return Some(head);
        }
      }
      return None;
    }

    /** Collect the dead child at position `i`. */
    method Collect(i: nat) returns (res: Result)
      requires i < |running|
      modifies this
      ensures Now() == CollectNext(setup, old(Now()), i) && res == ResultOf(setup, old(running)[i])
    {
      res := ResultOf(setup, running[i]);
      running := RemoveAt(running, i);
      ReleaseDevices(res.devices);
      results := results + [res];
      log := Then(log, Done(res, clock));
      if res.code != 0 {
        failed := true;
      }
    }

    /** Ask whether the child at position `i` is dead; this takes one tick. */
    method Poll(i: nat) returns (dead: bool)
      requires i < |running|
      modifies this`clock
      ensures Now() == old(Now()).(clock := old(clock) + 1) && dead == (env.death(running[i].job) <= old(clock))
    {
      dead := env.death(running[i].job) <= clock;
      clock := clock + 1;
    }

    method ReapOne() returns (r: Option<Result>)
      modifies this
      ensures (r, Now()) == ReapNext(setup, env, old(Now()))
    {
      var i := 0;
      ghost var was := Now();
      while i < |running|
        invariant Searching(env, was, i) && Now() == was.(clock := was.clock + i)
      {
        SearchOn(setup, env, was, i);
        var dead := Poll(i);
        if dead {
          assert Now() == was.(clock := was.clock + i + 1);
          var res := Collect(i);
          return Some(res);
        }
        i := i + 1;
      }
      SearchEnds(setup, env, was);
      return None;
    }

    /** After a result: cancel the batch on the first failure under fail-fast, else use the freed devices. */
    method Refill() returns (r: Progress)
      modifies this
      ensures (r, Now()) == RefillNext(setup, env, old(Now()))
    {
      if setup.failFast && failed && !cancelled {
        cancelled := true;
        queue := [];
        return Again;
      }
      var raised := Fill();
      return if raised.Some? then Threw(raised.value) else Again;
    }

    method Pass() returns (r: Progress)
      modifies this
      ensures (r, Now()) == PassNext(setup, env, old(Now()))
    {
      if cancelled {
        queue := [];
      }
      var reaped := ReapOne();
      if reaped.Some? {
        if !env.notifies(reaped.value.job) {
          return Interrupted(reaped.value.job);
        }
        r := Refill();
        return;
      }
      if running == [] {
        return Stuck;
      }
      clock := clock + 1;
      return Again;
    }

    /** The `finally` block: terminate the children that a cancelled batch has left running. */
    method CleanUp() returns (terminated: seq<nat>)
      modifies this
      ensures (terminated, Now()) == CleanUpNext(old(Now()))
    {
      terminated := [];
      if cancelled && running != [] {
        var children := running;
        for i := 0 to |children|
          invariant terminated == RunningJobs(children[..i])
          invariant Now() == old(Now()).(free := old(free) + HeldList(children[..i]), running := children[i..])
        {
          assert children[..i + 1][..i] == children[..i];
          terminated := terminated + [children[i].job];
          ReleaseDevices(children[i].devices);
          running := children[i + 1..];
        }
        assert children[..|children|] == children && children[|children|..] == [];
      }
    }
  }

  /** When the loop has ended, every started job has one result, and only a failure or the cap left jobs out. */
  lemma FinishedComplete(setup: Setup, env: Env, st: St)
    requires Good(setup, st) && st.running == [] && ((Queued(setup, st) && st.queue == []) || !CanStart(setup))
    ensures Ended(setup, env, Finished(st.results), st)
  {
    FailedIff(st.log);
    if !CanStart(setup) {
      NothingStarts(setup, st.log);
    }
    forall j: nat ensures multiset(ResultJobs(st.results))[j] == if j < After(st.log).started then 1 else 0 {
      OneResultEach(setup, st.log, j);
    }
  }

  /** What every outcome of the dispatch loop tells about the state it leaves. */
  ghost predicate Ended(setup: Setup, env: Env, o: Outcome, st: St) {
    match o
    case Rejected => false
    case StartError(job) => Raises(setup, env, st, job)
    case CallbackError(job) => Halted(setup, env, st, job)
    case Finished(results) =>
      && Legal(setup, st.log) && Orderly(setup, st.log)
      && results == After(st.log).results && After(st.log).running == st.running == []
      && (forall j: nat :: multiset(ResultJobs(results))[j] == if j < After(st.log).started then 1 else 0)
      && (!(setup.failFast && AnyFailure(results)) ==>
            (After(st.log).started == |setup.jobs| <==> setup.jobs == [] || CanStart(setup)))
  }

  /** Fill the devices, then reap and refill until nothing is running and nothing can start. */
  method Dispatch(st: RunState) returns (o: Outcome)
    requires !Oversized(st.setup) && st.Now() == Start(st.setup)
    modifies st
    ensures Ended(st.setup, st.env, o, st.Now()) && Punctual(st.env, st.Now())
  {
    StartGood(st.setup);
    FillGood(st.setup, st.env, st.Now());
    FillPunctual(st.setup, st.env, st.Now());
    var raised := st.Fill();
    if raised.Some? {
      return StartError(raised.value);
    }
    while st.running != [] || st.queue != []
      invariant Good(st.setup, st.Now()) && Queued(st.setup, st.Now()) && Settled(st.setup, st.Now())
      invariant Punctual(st.env, st.Now())
      decreases |st.queue| + |st.running|, TicksLeft(st.env, |st.setup.jobs|, st.clock)
    {
      PassGood(st.setup, st.env, st.Now());
      PassPunctual(st.setup, st.env, st.Now());
      var r := st.Pass();
      if r.Threw? {
        return StartError(r.job);
      } else if r.Interrupted? {
        return CallbackError(r.job);
      } else if r.Stuck? {
        break;
      }
    }
    FinishedComplete(st.setup, st.env, st.Now());
    return Finished(st.results);
  }

  /** The batch had been cancelled before the result that ends the log. */
  ghost predicate CancelledBefore(setup: Setup, log: Log) {
    log.Then? && setup.failFast && AnyFailure(After(log.before).results)
  }

  /** Which children the clean-up terminates. */
  lemma TerminatedIff(setup: Setup, env: Env, o: Outcome, st: St)
    requires Ended(setup, env, o, st)
    ensures Legal(setup, st.log) && Orderly(setup, st.log)
    ensures CleanUpNext(st).0 ==
      if o.CallbackError? && CancelledBefore(setup, st.log) then RunningJobs(After(st.log).running) else []
    ensures CleanUpNext(st).1.log == st.log
  {
    if o.CallbackError? {
      FailedIff(st.log.before);
    }
  }

  /** Every result of a legal log is the report of its own job. */
  lemma AllTrue(setup: Setup, log: Log)
    requires Legal(setup, log)
    ensures forall i :: 0 <= i < |After(log).results| ==>
      var res := After(log).results[i];
      && res.job < |setup.jobs| && res.name == setup.jobs[res.job].name && res.code == setup.code(res.job)
      && StartedOn(log, res.job, res.devices)
      && (setup.jobs[res.job].deviceCount >= 0 ==> |res.devices| == setup.jobs[res.job].deviceCount)
  {
    forall i | 0 <= i < |After(log).results|
      ensures var res := After(log).results[i];
        && res.job < |setup.jobs| && res.name == setup.jobs[res.job].name && res.code == setup.code(res.job)
        && StartedOn(log, res.job, res.devices)
        && (setup.jobs[res.job].deviceCount >= 0 ==> |res.devices| == setup.jobs[res.job].deviceCount)
    {
      ResultIsTrue(setup, log, i);
      GetsItsDevices(setup, log, After(log).results[i].job, After(log).results[i].devices);
    }
  }

  /**
   Runs the jobs.  The log is legal, orderly and timely: jobs start in list order on
   the devices that have been free longest, none is held back that could run, and a
   child is reaped when it is found dead.  If nothing raises, every started job is
   reaped, and unless fail-fast stopped the batch all jobs were started if and only
   if the cap allows at least one.  Children are terminated if and only if the
   callback raises on a result reaped after the cancellation while others run.
   */
  method Run(setup: Setup, env: Env) returns (o: Outcome, log: Log, terminated: seq<nat>)
    ensures Legal(setup, log) && InTurn(setup.pool, log) && Diligent(setup, log) && Timely(env.death, log)
    ensures o.Rejected? <==> exists j :: 0 <= j < |setup.jobs| && setup.jobs[j].deviceCount > |setup.pool|
    ensures o.Rejected? ==> log == Empty
    ensures o.StartError? ==> o.job == After(log).started < |setup.jobs| && !(env.builds(o.job) && env.spawns(o.job))
    ensures o.CallbackError? ==> log.Then? && log.last.Done? && log.last.res.job == o.job && !env.notifies(o.job)
    ensures o.Finished? ==> o.results == After(log).results && After(log).running == []
    ensures o.Finished? ==>
      forall j: nat :: multiset(ResultJobs(o.results))[j] == if j < After(log).started then 1 else 0
    ensures o.Finished? ==> forall i :: 0 <= i < |o.results| ==>
      var res := o.results[i];
      && res.job < |setup.jobs| && res.name == setup.jobs[res.job].name && res.code == setup.code(res.job)
      && StartedOn(log, res.job, res.devices)
      && (setup.jobs[res.job].deviceCount >= 0 ==> |res.devices| == setup.jobs[res.job].deviceCount)
    ensures o.Finished? && !(setup.failFast && exists i :: 0 <= i < |o.results| && o.results[i].code != 0) ==>
      (After(log).started == |setup.jobs| <==>
        setup.jobs == [] || (setup.maxParallel.Some? ==> setup.maxParallel.value >= 1))
    ensures terminated ==
      if o.CallbackError? && CancelledBefore(setup, log) then RunningJobs(After(log).running) else []
    ensures terminated != [] <==>
      && o.CallbackError? && After(log).running != [] && setup.failFast
      && exists i :: 0 <= i < |After(log.before).results| && After(log.before).results[i].code != 0
  {
    for j := 0 to |setup.jobs|
      invariant forall k :: 0 <= k < j ==> setup.jobs[k].deviceCount <= |setup.pool|
    {
      if setup.jobs[j].deviceCount > |setup.pool| {
        return Rejected, Empty, [];
      }
    }
    var st := new RunState(setup, env);
    o := Dispatch(st);
    TerminatedIff(setup, env, o, st.Now());
    AllTrue(setup, st.log);
    terminated := st.CleanUp();
    log := st.log;
  }
}
