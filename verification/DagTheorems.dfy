/**
 What the executor guarantees in every run, for every task table and every
 number of scheduler and worker blocks.
 */
module DagTheorems {
  import opened DagModel
  import opened DagInvariant
  import opened DagSteps
  import opened Arithmetic

  // -------------------------------------------------------------------------
  // Well-formed task tables
  // -------------------------------------------------------------------------

  /** The tasks that list `j` as a dependent. */
  ghost function Preds(c: Config, j: nat): set<nat> {
    set p: nat | p in UpTo(N(c)) && j in Deps(c, p)
  }

  /** Every dependent range is in bounds; no dependent is unknown, repeated or the task itself. */
  ghost predicate LegalEdges(c: Config) {
    && (forall p :: 0 <= p < N(c) ==> InBounds(c, p))
    && (forall p, i :: 0 <= p < N(c) && 0 <= i < |Deps(c, p)| ==>
          Deps(c, p)[i] < N(c) && Deps(c, p)[i] != p && Deps(c, p)[i] !in Deps(c, p)[..i])
  }

  /** Both copies of the fan-in are the true in-degree. */
  ghost predicate ExactFanin(c: Config) {
    |c.fanin0| == N(c) &&
    forall j :: 0 <= j < N(c) ==> c.fanin0[j] == c.tasks[j].initialFanin == |Preds(c, j)|
  }

  /** `order` lists every task once, and every edge goes forward in it. */
  ghost predicate Topological(c: Config, order: seq<nat>) {
    && |order| == N(c) && Distinct(order) && (forall a :: 0 <= a < |order| ==> order[a] < N(c))
    && (forall a, b :: 0 <= a < |order| && 0 <= b < |order| && order[b] in Deps(c, order[a]) ==> a < b)
  }

  ghost predicate AllRegistered(c: Config) {
    forall p :: 0 <= p < N(c) ==> c.tasks[p].funcId in c.registered
  }

  ghost predicate WellFormed(c: Config, order: seq<nat>) {
    LegalEdges(c) && ExactFanin(c) && AllRegistered(c) && Topological(c, order)
  }

  // -------------------------------------------------------------------------
  // Counters
  // -------------------------------------------------------------------------

  /** The counters of every reachable state form a chain bounded by the task count. */
  lemma CounterChain(c: Config, schedule: seq<Actor>)
    requires Launchable(c)
    ensures var m := Run(c, Init(c), schedule).m;
      && m.completed <= m.comp.head <= m.comp.tail <= |m.h.ran| <= |m.h.popped| <= m.ready.tail <= N(c)
      && |m.h.popped| <= m.ready.head
  {
    RunOk(c, schedule);
    var m := Run(c, Init(c), schedule).m;
    SubsetSize(m.h.done, m.h.claimed);
    SubsetSize(m.h.completes, m.h.ran);
    SubsetSize(m.h.ran, m.h.popped);
    SubsetSize(m.h.popped, m.h.published);
    PoppedBelowHead(c, m);
  }

  /** Distinct values at the first `k` places of a sequence. */
  lemma {:induction false} FirstValues(s: seq<nat>, k: nat)
    requires k <= |s|
    ensures |set i | 0 <= i < k :: s[i]| <= k
  {
    if k > 0 {
      FirstValues(s, k - 1);
      assert (set i | 0 <= i < k :: s[i]) == (set i | 0 <= i < k - 1 :: s[i]) + {s[k - 1]};
    }
  }

  lemma PoppedBelowHead(c: Config, m: Shared)
    requires Global(c, m)
    ensures |m.h.popped| <= m.ready.head
  {
    var k := if m.ready.head < m.ready.tail then m.ready.head else m.ready.tail;
    var first := set i | 0 <= i < k :: m.ready.vals[i];
    FirstValues(m.ready.vals, k);
    Positions(m.ready.vals, m.h.published);
    forall j | j in m.h.popped ensures j in first {
      var i :| 0 <= i < m.ready.tail && m.ready.vals[i] == j;
      assert m.ready.phase[i].Consumed?;
    }
    SubsetSize(m.h.popped, first);
  }

  /** A set as large as a sequence of its distinct members has no other member. */
  lemma Positions(s: seq<nat>, t: set<nat>)
    requires Distinct(s) && |t| == |s| && forall i :: 0 <= i < |s| ==> s[i] in t
    ensures forall x :: x in t ==> exists i :: 0 <= i < |s| && s[i] == x
  {
    DistinctSize(s);
    SubsetSize(Members(s), t);
  }

  /** Every task has a place in a topological order. */
  lemma PlaceOf(c: Config, order: seq<nat>, q: nat) returns (a: nat)
    requires Topological(c, order) && q < N(c)
    ensures a < |order| && order[a] == q
  {
    Positions(order, UpTo(N(c)));
    assert q in UpTo(N(c));
    a :| 0 <= a < |order| && order[a] == q;
  }

  lemma PredecessorIsEarlier(c: Config, order: seq<nat>, k: nat, p: nat) returns (a: nat)
    requires Topological(c, order) && k < |order| && p in Preds(c, order[k])
    ensures a < k && order[a] == p
  {
    a := PlaceOf(c, order, p);
  }

  // -------------------------------------------------------------------------
  // A clean finish certifies the graph
  // -------------------------------------------------------------------------

  /** All tasks are counted as completed and no error is recorded. */
  predicate CleanFinish(c: Config, m: Shared) {
    m.completed == N(c) && m.err.NoError?
  }

  lemma EverythingDone(c: Config, m: Shared)
    requires Global(c, m) && CleanFinish(c, m)
    ensures forall j :: 0 <= j < N(c) ==> j in m.h.done
    ensures m.ready.tail == m.comp.tail == m.comp.head == N(c)
    ensures forall j :: 0 <= j < N(c) ==> m.fanin[j] == 0
  {
    BoundedSet(m.h.done, N(c));
    SubsetSize(m.h.done, m.h.claimed);
    SubsetSize(m.h.claimed, m.h.completes);
    SubsetSize(m.h.done, m.h.published);
    BoundedSet(m.h.published, N(c));
  }

  lemma DoneIsSettled(c: Config, m: Shared, p: nat, i: nat)
    requires Global(c, m) && m.err.NoError? && p in m.h.done && i < |Deps(c, p)|
    ensures InBounds(c, p) && Settled(c, m.h.dec, p, i)
  {
    assert SettledTo(c, m.h.dec, p, |Deps(c, p)|);
  }

  /** A counted-down edge is an edge, and every edge of a completed task has been counted down. */
  lemma EdgesOfDone(c: Config, m: Shared, p: nat, j: nat)
    requires Global(c, m) && m.err.NoError? && p in m.h.done && j < N(c)
    ensures p in m.h.dec[j] <==> j in Deps(c, p)
  {
    if j in Deps(c, p) {
      var i :| 0 <= i < |Deps(c, p)| && Deps(c, p)[i] == j;
      DoneIsSettled(c, m, p, i);
    }
  }

  lemma CleanEdges(c: Config, m: Shared)
    requires Global(c, m) && CleanFinish(c, m)
    ensures LegalEdges(c)
  {
    EverythingDone(c, m);
    forall p, i | 0 <= p < N(c) && 0 <= i < |Deps(c, p)|
      ensures Deps(c, p)[i] < N(c) && Deps(c, p)[i] != p && Deps(c, p)[i] !in Deps(c, p)[..i]
    {
      DoneIsSettled(c, m, p, i);
    }
  }

  /** Only edges are counted down. */
  lemma DecInPreds(c: Config, m: Shared, j: nat)
    requires Global(c, m) && j < N(c)
    ensures m.h.dec[j] <= Preds(c, j)
  {
    forall p | p in m.h.dec[j] ensures p in Preds(c, j) {
      assert p in m.h.claimed;
    }
  }

  lemma PredsInDec(c: Config, m: Shared, j: nat)
    requires Global(c, m) && m.err.NoError? && j < N(c) && Preds(c, j) <= m.h.done
    ensures Preds(c, j) <= m.h.dec[j]
  {
    forall p | p in Preds(c, j) ensures p in m.h.dec[j] {
      EdgesOfDone(c, m, p, j);
    }
  }

  lemma CleanPreds(c: Config, m: Shared, j: nat)
    requires Global(c, m) && CleanFinish(c, m) && j < N(c)
    ensures m.h.dec[j] == Preds(c, j)
  {
    EverythingDone(c, m);
    DecInPreds(c, m, j);
    PredsInDec(c, m, j);
  }

  lemma CleanFanin(c: Config, st: State)
    requires Inv(c, st) && CleanFinish(c, st.m)
    ensures ExactFanin(c)
  {
    var m := st.m;
    EverythingDone(c, m);
    forall j | 0 <= j < N(c) ensures c.fanin0[j] == c.tasks[j].initialFanin == |Preds(c, j)| {
      CleanPreds(c, m, j);
      assert m.fanin[j] + |m.h.dec[j]| == c.fanin0[j];
      var s := j % S(c);
      assert j in m.h.claimed;
      InScanUntilInited(c, m, s, st.scheds[s]);
      assert Covered(st.scheds[s], j);
    }
  }

  /**
   A run that ends with every task completed and no error certifies its task
   table, and the order in which the tasks were published is a topological
   order of the graph.
   */
  lemma CleanFinishCertifies(c: Config, schedule: seq<Actor>)
    requires Launchable(c) && CleanFinish(c, Run(c, Init(c), schedule).m)
    ensures WellFormed(c, Run(c, Init(c), schedule).m.ready.vals)
  {
    RunOk(c, schedule);
    var st := Run(c, Init(c), schedule);
    EverythingDone(c, st.m);
    CleanEdges(c, st.m);
    CleanFanin(c, st);
    var order := st.m.ready.vals;
    forall a, b | 0 <= a < |order| && 0 <= b < |order| && order[b] in Deps(c, order[a]) ensures a < b {
      CleanPreds(c, st.m, order[b]);
      assert order[a] in st.m.h.dec[order[b]];
    }
  }
}
