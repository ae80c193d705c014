/**
 Infinite runs of the executor with any number of scheduler blocks.  A fair run,
 one that gives every block infinitely many turns, always reaches a verdict: it
 never hangs silently.  A broken task table is always reported.  With one
 scheduler block, and on fork-join graphs with any number of them, the verdict
 is exact: a clean finish if and only if the table is a well-formed graph.
 */
module DagFairRuns {
  import opened DagModel
  import opened DagTheorems
  import opened DagDataflow
  import opened DagAlarms
  import opened DagForkJoin
  import opened DagProgress
  import opened DagLiveness

  predicate Launched(c: Config, a: Actor) {
    match a
    case Sched(s) => s < S(c)
    case Worker(w) => w < c.workerBlocks
  }

  ghost predicate Returns(turn: nat -> Actor, n: nat, a: Actor) {
    exists k: nat :: n <= k && turn(k) == a
  }

  /** Every block is scheduled again and again. */
  ghost predicate Fair(c: Config, turn: nat -> Actor) {
    forall a, n: nat :: Launched(c, a) ==> Returns(turn, n, a)
  }

  predicate Follows(c: Config, turn: nat -> Actor, run: nat -> State, n: nat) {
    run(n + 1) == Step(c, run(n), turn(n))
  }

  ghost predicate Chained(c: Config, turn: nat -> Actor, run: nat -> State) {
    forall n: nat :: Follows(c, turn, run, n)
  }

  /** `run` is the infinite run in which block `turn(n)` makes step `n`. */
  ghost predicate IsRun(c: Config, turn: nat -> Actor, run: nat -> State) {
    run(0) == Init(c) && Chained(c, turn, run)
  }

  /** The launch is valid and has a worker block. */
  predicate Manned(c: Config) {
    Launchable(c) && c.workerBlocks >= 1
  }

  // -------------------------------------------------------------------------
  // Progress
  // -------------------------------------------------------------------------

  lemma SoundInit(c: Config)
    requires Manned(c)
    ensures Sound(c, Init(c))
  {
    LiveInit(c);
  }

  lemma SoundNext(c: Config, turn: nat -> Actor, run: nat -> State, n: nat)
    requires Chained(c, turn, run) && Sound(c, run(n))
    ensures Sound(c, run(n + 1))
  {
    SoundStep(c, run(n), turn(n));
    assert Follows(c, turn, run, n);
  }

  lemma {:induction false} SoundFrom(c: Config, turn: nat -> Actor, run: nat -> State, n: nat)
    requires Chained(c, turn, run) && Sound(c, run(0))
    ensures Sound(c, run(n))
  {
    if n > 0 {
      SoundFrom(c, turn, run, n - 1);
      SoundNext(c, turn, run, n - 1);
    }
  }

  lemma SoundAt(c: Config, turn: nat -> Actor, run: nat -> State, n: nat)
    requires Manned(c) && IsRun(c, turn, run)
    ensures Sound(c, run(n))
  {
    SoundInit(c);
    SoundFrom(c, turn, run, n);
  }

  lemma {:induction false} OverStays(c: Config, turn: nat -> Actor, run: nat -> State, n: nat, k: nat)
    requires IsRun(c, turn, run) && n <= k && Over(c, run(n).m)
    ensures Over(c, run(k).m)
    decreases k
  {
    if n < k {
      OverStays(c, turn, run, n, k - 1);
      OverStep(c, run(k - 1), turn(k - 1));
      assert Follows(c, turn, run, k - 1);
    }
  }

  lemma ProgressNext(c: Config, turn: nat -> Actor, run: nat -> State, st0: State, n: nat, a: Actor)
    requires Manned(c) && IsRun(c, turn, run) && Progress(c, st0, run(n), a)
    ensures Progress(c, st0, run(n + 1), a)
    ensures turn(n) == a ==> Over(c, run(n + 1).m) || Rank(c, run(n + 1)) < Rank(c, st0)
  {
    SoundAt(c, turn, run, n);
    ProgressKept(c, st0, run(n), a, turn(n));
    assert Follows(c, turn, run, n);
  }

  /** Until it takes its turn, a helpful block stays helpful, unless others have lowered the rank. */
  lemma {:induction false} ProgressAt(
    c: Config, turn: nat -> Actor, run: nat -> State, st0: State, n: nat, k: nat, a: Actor)
    requires Manned(c) && IsRun(c, turn, run) && n <= k && Progress(c, st0, run(n), a)
    ensures Progress(c, st0, run(k), a)
    decreases k
  {
    if n < k {
      ProgressAt(c, turn, run, st0, n, k - 1, a);
      ProgressNext(c, turn, run, st0, k - 1, a);
    }
  }

  lemma TurnOf(c: Config, turn: nat -> Actor, n: nat, a: Actor) returns (k: nat)
    requires Fair(c, turn) && Launched(c, a)
    ensures n <= k && turn(k) == a
  {
    assert Returns(turn, n, a);
    k :| n <= k && turn(k) == a;
  }

  lemma HelperAt(c: Config, turn: nat -> Actor, run: nat -> State, n: nat) returns (a: Actor)
    requires Manned(c) && IsRun(c, turn, run)
    ensures Launched(c, a) && Progress(c, run(n), run(n), a)
  {
    SoundAt(c, turn, run, n);
    a := SomeoneHelps(c, run(n));
  }

  lemma EventuallyLower(c: Config, turn: nat -> Actor, run: nat -> State, n: nat) returns (k: nat)
    requires Manned(c) && IsRun(c, turn, run) && Fair(c, turn)
    ensures Over(c, run(k + 1).m) || Rank(c, run(k + 1)) < Rank(c, run(n))
  {
    var a := HelperAt(c, turn, run, n);
    k := TurnOf(c, turn, n, a);
    ProgressAt(c, turn, run, run(n), n, k, a);
    ProgressNext(c, turn, run, run(n), k, a);
  }

  /** A fair run is over after finitely many steps. */
  lemma {:induction false} EventuallyOver(c: Config, turn: nat -> Actor, run: nat -> State, n: nat) returns (end: nat)
    requires Manned(c) && IsRun(c, turn, run) && Fair(c, turn)
    ensures Over(c, run(end).m)
    decreases Rank(c, run(n))
  {
    var k := EventuallyLower(c, turn, run, n);
    end := k + 1;
    if !Over(c, run(end).m) {
      end := EventuallyOver(c, turn, run, end);
    }
  }

  // -------------------------------------------------------------------------
  // The verdict
  // -------------------------------------------------------------------------

  /** The task table describes an acyclic graph with exact fan-ins and known functions. */
  ghost predicate Acyclic(c: Config) {
    exists order :: WellFormed(c, order)
  }

  /** The stall detector is exact: one scheduler block, or a fork-join graph. */
  ghost predicate ExactStall(c: Config) {
    S(c) == 1 || exists join: nat :: ForkJoin(c, join)
  }

  lemma NeverErrs(c: Config, schedule: seq<Actor>, order: seq<nat>)
    requires Launchable(c) && WellFormed(c, order) && ExactStall(c)
    ensures Run(c, Init(c), schedule).m.err.NoError?
  {
    if S(c) == 1 {
      NoFalseAlarm(c, schedule, order);
    } else {
      var join: nat :| ForkJoin(c, join);
      ForkJoinNeverAlarms(c, schedule, order, join);
    }
  }

  function Prefix(turn: nat -> Actor, n: nat): seq<Actor> {
    if n == 0 then [] else Prefix(turn, n - 1) + [turn(n - 1)]
  }

  lemma {:induction false} RunOfPrefix(c: Config, turn: nat -> Actor, run: nat -> State, n: nat)
    requires IsRun(c, turn, run)
    ensures run(n) == Run(c, Init(c), Prefix(turn, n))
  {
    if n > 0 {
      RunOfPrefix(c, turn, run, n - 1);
      assert Follows(c, turn, run, n - 1);
      var p := Prefix(turn, n);
      assert p[..|p| - 1] == Prefix(turn, n - 1);
    }
  }

  /** What the final error word says about the task table. */
  ghost predicate Verdict(c: Config, m: Shared) {
    && (m.err.NoError? ==> CleanFinish(c, m) && Acyclic(c))
    && (ExactStall(c) && Acyclic(c) ==> m.err.NoError?)
  }

  lemma VerdictOf(c: Config, schedule: seq<Actor>)
    requires Launchable(c) && Over(c, Run(c, Init(c), schedule).m)
    ensures Verdict(c, Run(c, Init(c), schedule).m)
  {
    CounterChain(c, schedule);
    if CleanFinish(c, Run(c, Init(c), schedule).m) {
      CleanFinishCertifies(c, schedule);
    }
    if ExactStall(c) && Acyclic(c) {
      var order :| WellFormed(c, order);
      NeverErrs(c, schedule, order);
    }
  }

  /**
   No silent hang and no wrong verdict, with any number of blocks: from some step
   on, every fair run shows an error or a clean finish.  A clean finish means that
   the table is a well-formed graph, and where the stall detector is exact a
   well-formed graph always ends in one.
   */
  lemma FairRunDecides(c: Config, turn: nat -> Actor, run: nat -> State) returns (end: nat)
    requires Manned(c) && IsRun(c, turn, run) && Fair(c, turn)
    ensures forall n :: end <= n ==> Verdict(c, run(n).m)
  {
    end := EventuallyOver(c, turn, run, 0);
    forall n | end <= n ensures Verdict(c, run(n).m) {
      OverStays(c, turn, run, end, n);
      RunOfPrefix(c, turn, run, n);
      VerdictOf(c, Prefix(turn, n));
    }
  }

  /** On a well-formed data-flow graph, every fair run ends with the memory of the sequential evaluation. */
  lemma FairRunComputes(c: Config, turn: nat -> Actor, run: nat -> State, order: seq<nat>) returns (end: nat)
    requires Manned(c) && IsRun(c, turn, run) && Fair(c, turn)
    requires WellFormed(c, order) && Dataflow(c) && ExactStall(c)
    ensures forall n :: end <= n ==> run(n).m.err.NoError? && run(n).m.mem == Sequential(c, order, |order|)
  {
    end := FairRunDecides(c, turn, run);
    assert Acyclic(c);
    forall n | end <= n ensures run(n).m.err.NoError? && run(n).m.mem == Sequential(c, order, |order|) {
      assert Verdict(c, run(n).m);
      RunOfPrefix(c, turn, run, n);
      ConcurrentRefinesSequential(c, Prefix(turn, n), order);
    }
  }
}
