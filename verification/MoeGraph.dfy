/**
 The persistent mixture-of-experts graph: four expert tasks on the inputs `a`
 and `b`, and a weighted combine of their outputs.  Every clean finish leaves the
 combine buffer equal to the host's golden result, and every fair run gets there,
 with any number of scheduler and worker blocks.
 */
module MoeGraph {
  import opened DagModel
  import opened DagTheorems
  import opened DagDataflow
  import opened DagForkJoin
  import opened DagFairRuns
  import opened DagReturn
  import opened Arithmetic

  // -------------------------------------------------------------------------
  // The host's reference
  // -------------------------------------------------------------------------

  function ZipWith(f: (real, real) -> real, x: Buffer, y: Buffer): Buffer {
    seq(if |x| <= |y| then |x| else |y|, i requires 0 <= i < |x| && i < |y| => f(x[i], y[i]))
  }

  /** The golden output, expert by expert and then the weighted sum. */
  function Golden(a: Buffer, b: Buffer): Buffer
    requires |a| == |b|
  {
    var expert0 := ZipWith((x, y) => 1.25 * x + 0.5 * y, a, b);
    var expert1 := ZipWith((x, y) => -0.75 * x + y, a, b);
    var expert2 := seq(|a|, i requires 0 <= i < |a| => 0.25 * a[i]);
    var expert3 := ZipWith((x, y) => x * y, a, b);
    seq(|a|, i requires 0 <= i < |a| =>
      0.5 * expert0[i] + 0.25 * expert1[i] + 0.125 * expert2[i] + 0.0625 * expert3[i])
  }

  /** The golden output in closed form. */
  lemma GoldenClosedForm(a: Buffer, b: Buffer)
    requires |a| == |b|
    ensures |Golden(a, b)| == |a|
    ensures forall i :: 0 <= i < |a| ==> Golden(a, b)[i] == 0.46875 * a[i] + 0.5 * b[i] + 0.0625 * (a[i] * b[i])
  {
  }

  // -------------------------------------------------------------------------
  // The task table and the device bodies
  // -------------------------------------------------------------------------

  function Elem(args: seq<Buffer>, k: nat, i: nat): real {
    if k < |args| && i < |args[k]| then args[k][i] else 0.0
  }

  function Scalar(t: Task, k: nat): real {
    if k < |t.scalars| then t.scalars[k] else 0.0
  }

  /** One element of a task's output, as the body registered for its func_id computes it. */
  function Element(t: Task, args: seq<Buffer>, i: nat): real {
    match t.funcId
    case 12 => Scalar(t, 0) * Elem(args, 0, i) + Scalar(t, 1) * Elem(args, 1, i)
    case 4 => Scalar(t, 0) * Elem(args, 0, i) + Elem(args, 1, i)
    case 11 => Scalar(t, 0) * Elem(args, 0, i)
    case 2 => Elem(args, 0, i) * Elem(args, 1, i)
    case 13 =>
      Scalar(t, 0) * Elem(args, 0, i) + Scalar(t, 1) * Elem(args, 1, i) +
      Scalar(t, 2) * Elem(args, 2, i) + Scalar(t, 3) * Elem(args, 3, i)
    case _ => 0.0
  }

  function Body(n: nat): (Task, seq<Buffer>) -> Buffer {
    (t: Task, args: seq<Buffer>) => seq(n, i requires 0 <= i < n => Element(t, args, i))
  }

  function Tasks(): seq<Task> {
    [Task(12, [0, 1], 2, [1.25, 0.5], 0, 1, 0),
     Task(4, [0, 1], 3, [-0.75], 1, 1, 0),
     Task(11, [0], 4, [0.25], 2, 1, 0),
     Task(2, [0, 1], 5, [], 3, 1, 0),
     Task(13, [2, 3, 4, 5], 6, [0.5, 0.25, 0.125, 0.0625], 4, 0, 4)]
  }

  /** Buffers: a, b, the four expert outputs, and the combined output. */
  function Moe(a: Buffer, b: Buffer, scratch: seq<Buffer>, capacity: nat, schedulers: nat, workers: nat): Config {
    Config(Tasks(), [4, 4, 4, 4], [0, 0, 0, 0, 4], [a, b] + scratch, capacity, schedulers, workers,
           {12, 4, 11, 2, 13}, Body(|a|))
  }

  const ORDER: seq<nat> := [0, 1, 2, 3, 4]

  // -------------------------------------------------------------------------
  // The table is well formed
  // -------------------------------------------------------------------------

  ghost predicate IsMoe(c: Config) {
    c.tasks == Tasks() && c.dependents == [4, 4, 4, 4] && c.fanin0 == [0, 0, 0, 0, 4] &&
    c.registered == {12, 4, 11, 2, 13} && |c.memory0| == 7
  }

  lemma MoeDeps(c: Config)
    requires IsMoe(c)
    ensures N(c) == 5 && Deps(c, 4) == [] && forall p :: 0 <= p < 4 ==> Deps(c, p) == [4]
  {
    assert Deps(c, 0) == [4] && Deps(c, 1) == [4] && Deps(c, 2) == [4] && Deps(c, 3) == [4];
  }

  lemma MoePreds(c: Config)
    requires IsMoe(c)
    ensures Preds(c, 4) == {0, 1, 2, 3} && forall p :: 0 <= p < 4 ==> Preds(c, p) == {}
  {
    MoeDeps(c);
    forall p: nat, j: nat | p < 5 && j < 5 ensures j in Deps(c, p) <==> p < 4 && j == 4 {
    }
  }

  lemma MoeEdges(c: Config)
    requires IsMoe(c)
    ensures LegalEdges(c)
  {
    MoeDeps(c);
  }

  lemma MoeFaninOf(c: Config, j: nat)
    requires IsMoe(c) && j < 5
    ensures c.fanin0[j] == c.tasks[j].initialFanin == |Preds(c, j)|
  {
    MoePreds(c);
    if j < 4 {
      MoeSource(c, j);
      assert Preds(c, j) == {};
    }
  }

  lemma MoeSource(c: Config, j: nat)
    requires c.tasks == Tasks() && c.fanin0 == [0, 0, 0, 0, 4] && j < 4
    ensures c.fanin0[j] == 0 && c.tasks[j].initialFanin == 0
  {
  }

  lemma MoeFanin(c: Config)
    requires IsMoe(c)
    ensures ExactFanin(c)
  {
    forall j: nat | j < 5 ensures c.fanin0[j] == c.tasks[j].initialFanin == |Preds(c, j)| {
      MoeFaninOf(c, j);
    }
  }

  lemma MoeRegistered(c: Config)
    requires IsMoe(c)
    ensures AllRegistered(c)
  {
  }

  lemma MoeOrder(c: Config)
    requires IsMoe(c)
    ensures Topological(c, ORDER)
  {
    MoeDeps(c);
    forall p, q | 0 <= p < 5 && 0 <= q < 5 && ORDER[q] in Deps(c, ORDER[p]) ensures p < q {
      assert ORDER[p] == p && ORDER[q] == q;
    }
  }

  lemma MoeIsWellFormed(c: Config)
    requires IsMoe(c)
    ensures WellFormed(c, ORDER)
  {
    MoeEdges(c);
    MoeFanin(c);
    MoeRegistered(c);
    MoeOrder(c);
  }

  lemma MoeReads(c: Config, p: nat, q: nat)
    requires IsMoe(c) && p < 5 && q < 5
    ensures c.tasks[q].out in c.tasks[p].ins ==> p == 4 && q < 4
  {
    assert c.tasks[q].out == q + 2;
    var ins := c.tasks[p].ins;
    if p < 4 {
      assert forall i :: 0 <= i < |ins| ==> ins[i] < 2;
    } else {
      assert forall i :: 0 <= i < |ins| ==> ins[i] < 6;
    }
  }

  lemma MoeIsDataflow(c: Config)
    requires IsMoe(c)
    ensures Dataflow(c)
  {
    MoeDeps(c);
    forall p, q | 0 <= p < N(c) && 0 <= q < N(c) && c.tasks[q].out in c.tasks[p].ins ensures p in Deps(c, q) {
      MoeReads(c, p, q);
    }
  }

  // -------------------------------------------------------------------------
  // What the graph computes
  // -------------------------------------------------------------------------

  lemma ExecuteEffect(c: Config, mem: seq<Buffer>, p: nat)
    requires IsMoe(c) && |mem| == 7 && p < 5
    ensures Execute(c, mem, p) == mem[p + 2 := c.body(Tasks()[p], Args(Tasks()[p].ins, mem))]
    ensures Sequential(c, ORDER, p + 1) == Execute(c, Sequential(c, ORDER, p), p)
  {
    assert ORDER[p] == p;
  }

  /** The memory after the four experts. */
  lemma ExpertsOutput(c: Config, a: Buffer, b: Buffer)
    requires IsMoe(c) && c.body == Body(|a|) && c.memory0[0] == a && c.memory0[1] == b
    ensures var mem := Sequential(c, ORDER, 4);
      && |mem| == 7
      && mem[2] == Body(|a|)(Tasks()[0], [a, b]) && mem[3] == Body(|a|)(Tasks()[1], [a, b])
      && mem[4] == Body(|a|)(Tasks()[2], [a]) && mem[5] == Body(|a|)(Tasks()[3], [a, b])
  {
    var m0 := c.memory0;
    assert Args([0, 1], m0) == [a, b];
    var m1 := Sequential(c, ORDER, 1);
    ExecuteEffect(c, m0, 0);
    assert Args([0, 1], m1) == [a, b];
    var m2 := Sequential(c, ORDER, 2);
    ExecuteEffect(c, m1, 1);
    assert Args([0], m2) == [a];
    var m3 := Sequential(c, ORDER, 3);
    ExecuteEffect(c, m2, 2);
    assert Args([0, 1], m3) == [a, b];
    ExecuteEffect(c, m3, 3);
  }

  lemma CombineIsGolden(a: Buffer, b: Buffer)
    requires |a| == |b|
    ensures var n := |a|;
      Body(n)(Tasks()[4], [Body(n)(Tasks()[0], [a, b]), Body(n)(Tasks()[1], [a, b]),
                           Body(n)(Tasks()[2], [a]), Body(n)(Tasks()[3], [a, b])]) == Golden(a, b)
  {
    var n := |a|;
    var e0, e1 := Body(n)(Tasks()[0], [a, b]), Body(n)(Tasks()[1], [a, b]);
    var e2, e3 := Body(n)(Tasks()[2], [a]), Body(n)(Tasks()[3], [a, b]);
    var out := Body(n)(Tasks()[4], [e0, e1, e2, e3]);
    forall i | 0 <= i < n ensures out[i] == Golden(a, b)[i] {
      assert e0[i] == 1.25 * a[i] + 0.5 * b[i];
      assert e1[i] == -0.75 * a[i] + b[i];
      assert e2[i] == 0.25 * a[i];
      assert e3[i] == a[i] * b[i];
      assert out[i] == 0.5 * e0[i] + 0.25 * e1[i] + 0.125 * e2[i] + 0.0625 * e3[i];
    }
  }

  lemma SequentialIsGolden(c: Config, a: Buffer, b: Buffer)
    requires IsMoe(c) && c.body == Body(|a|) && c.memory0[0] == a && c.memory0[1] == b && |a| == |b|
    ensures |Sequential(c, ORDER, 5)| == 7 && Sequential(c, ORDER, 5)[6] == Golden(a, b)
  {
    ExpertsOutput(c, a, b);
    var mem := Sequential(c, ORDER, 4);
    assert Args([2, 3, 4, 5], mem) == [mem[2], mem[3], mem[4], mem[5]];
    CombineIsGolden(a, b);
  }

  lemma FinishIsGolden(c: Config, a: Buffer, b: Buffer, schedule: seq<Actor>)
    requires IsMoe(c) && c.body == Body(|a|) && c.memory0[0] == a && c.memory0[1] == b && |a| == |b| && c.capacity >= 5
    requires CleanFinish(c, Run(c, Init(c), schedule).m)
    ensures |Run(c, Init(c), schedule).m.mem| == 7 && Run(c, Init(c), schedule).m.mem[6] == Golden(a, b)
  {
    MoeOrder(c);
    MoeIsDataflow(c);
    ConcurrentRefinesSequential(c, schedule, ORDER);
    SequentialIsGolden(c, a, b);
  }

  /** A clean finish leaves the golden result, for every interleaving and every number of blocks. */
  lemma CleanFinishIsGolden(
    a: Buffer, b: Buffer, scratch: seq<Buffer>, capacity: nat, schedulers: nat, workers: nat, schedule: seq<Actor>)
    requires |a| == |b| && |scratch| == 5 && capacity >= 5
    requires var c := Moe(a, b, scratch, capacity, schedulers, workers); CleanFinish(c, Run(c, Init(c), schedule).m)
    ensures var c := Moe(a, b, scratch, capacity, schedulers, workers);
      |Run(c, Init(c), schedule).m.mem| == 7 && Run(c, Init(c), schedule).m.mem[6] == Golden(a, b)
  {
    var c := Moe(a, b, scratch, capacity, schedulers, workers);
    assert IsMoe(c);
    FinishIsGolden(c, a, b, schedule);
  }

  lemma FirstFour()
    ensures UpTo(5) - {4} == {0, 1, 2, 3}
  {
    forall x: nat ensures x in UpTo(5) - {4} <==> x in {0, 1, 2, 3} {
    }
  }

  lemma MoeIsForkJoin(c: Config)
    requires IsMoe(c)
    ensures ForkJoin(c, 4)
  {
    MoePreds(c);
    FirstFour();
    forall p: nat | p < N(c) && p != 4 ensures Preds(c, p) == {} {
      assert 0 <= p < 4;
    }
  }

  lemma MoeIsExact(c: Config)
    requires IsMoe(c)
    ensures ExactStall(c)
  {
    MoeIsForkJoin(c);
  }

  lemma MoeReturns(c: Config, turn: nat -> Actor, run: nat -> State) returns (end: nat)
    requires IsMoe(c) && Manned(c) && IsRun(c, turn, run) && Fair(c, turn)
    ensures AllReturned(c, run(end)) && run(end).m.err.NoError? && run(end).m.mem == Sequential(c, ORDER, |ORDER|)
  {
    MoeIsWellFormed(c);
    MoeIsDataflow(c);
    MoeIsExact(c);
    end := FairRunDelivers(c, turn, run, ORDER);
  }

  lemma ReturnIsGolden(c: Config, a: Buffer, b: Buffer, turn: nat -> Actor, run: nat -> State) returns (end: nat)
    requires IsMoe(c) && c.body == Body(|a|) && c.memory0[0] == a && c.memory0[1] == b && |a| == |b|
    requires Manned(c) && IsRun(c, turn, run) && Fair(c, turn)
    ensures AllReturned(c, run(end)) && run(end).m.err.NoError?
    ensures |run(end).m.mem| == 7 && run(end).m.mem[6] == Golden(a, b)
  {
    end := MoeReturns(c, turn, run);
    SequentialIsGolden(c, a, b);
  }

  /**
   Every fair run returns with the golden result and without an error, for every
   number of scheduler blocks and of worker blocks.
   */
  lemma FairRunIsGolden(
    a: Buffer, b: Buffer, scratch: seq<Buffer>, capacity: nat, schedulers: nat, workers: nat,
    turn: nat -> Actor, run: nat -> State)
    returns (end: nat)
    requires |a| == |b| && |scratch| == 5 && capacity >= 5 && workers >= 1
    requires var c := Moe(a, b, scratch, capacity, schedulers, workers); IsRun(c, turn, run) && Fair(c, turn)
    ensures AllReturned(Moe(a, b, scratch, capacity, schedulers, workers), run(end))
    ensures run(end).m.err.NoError? && |run(end).m.mem| == 7 && run(end).m.mem[6] == Golden(a, b)
  {
    var c := Moe(a, b, scratch, capacity, schedulers, workers);
    assert IsMoe(c);
    end := ReturnIsGolden(c, a, b, turn, run);
  }
}
