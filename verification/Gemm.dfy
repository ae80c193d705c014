/**
 The scalar and the tiled matrix product.  The tiled kernel loads its block of
 C, adds the product of one pair of blocks per step and stores the sum; a
 barrier counts the completed loads and the kernel waits on its parity.
 */
module Gemm {
  import opened Arithmetic

  type Matrix = seq<seq<real>>

  predicate Shaped(m: Matrix, rows: nat, cols: nat) {
    |m| == rows && forall i :: 0 <= i < rows ==> |m[i]| == cols
  }

  /** The product of row `i` of `a` and column `j` of `b` over the first `k` terms. */
  function Dot(a: Matrix, b: Matrix, i: nat, j: nat, k: nat): real
    requires i < |a| && k <= |a[i]| && k <= |b| && forall t :: 0 <= t < k ==> j < |b[t]|
  {
    if k == 0 then 0.0 else Dot(a, b, i, j, k - 1) + a[i][k - 1] * b[k - 1][j]
  }

  /** A column that is zero but for entry `t` picks entry `t` of the row. */
  lemma {:induction false} DotPicks(a: Matrix, b: Matrix, i: nat, j: nat, k: nat, t: nat)
    requires i < |a| && k <= |a[i]| && k <= |b| && forall u :: 0 <= u < k ==> j < |b[u]|
    requires t < |a[i]| && t < |b| && j < |b[t]| && forall u :: 0 <= u < k && u != t ==> b[u][j] == 0.0
    ensures Dot(a, b, i, j, k) == if t < k then a[i][t] * b[t][j] else 0.0
    decreases k
  {
    if k > 0 {
      DotPicks(a, b, i, j, k - 1, t);
    }
  }

  /** The product is additive in the second matrix. */
  lemma {:induction false} DotAdds(a: Matrix, b: Matrix, b': Matrix, sum: Matrix, i: nat, j: nat, k: nat)
    requires i < |a| && k <= |a[i]| && k <= |b| && k <= |b'| && k <= |sum|
    requires forall u :: 0 <= u < k ==> j < |b[u]| && j < |b'[u]| && j < |sum[u]| && sum[u][j] == b[u][j] + b'[u][j]
    ensures Dot(a, sum, i, j, k) == Dot(a, b, i, j, k) + Dot(a, b', i, j, k)
    decreases k
  {
    if k > 0 {
      DotAdds(a, b, b', sum, i, j, k - 1);
      Distribute(a[i][k - 1], b[k - 1][j], b'[k - 1][j]);
    }
  }

  lemma Distribute(x: real, y: real, z: real)
    ensures x * (y + z) == x * y + x * z
  {
  }

  // -------------------------------------------------------------------------
  // The scalar kernel
  // -------------------------------------------------------------------------

  /** One program of the scalar kernel. */
  method ScalarProgram(a: Matrix, b: Matrix, c: array2<real>, row: nat, col: nat, k: nat)
    requires Shaped(a, c.Length0, k) && Shaped(b, k, c.Length1) && row < c.Length0 && col < c.Length1
    modifies c
    ensures c[row, col] == Dot(a, b, row, col, k)
    ensures forall i, j :: 0 <= i < c.Length0 && 0 <= j < c.Length1 && (i != row || j != col) ==> c[i, j] == old(c[i, j])
  {
    var acc := 0.0;
    for kk := 0 to k
      invariant acc == Dot(a, b, row, col, kk)
    {
      acc := acc + a[row][kk] * b[kk][col];
    }
    c[row, col] := acc;
  }

  // -------------------------------------------------------------------------
  // Blocks
  // -------------------------------------------------------------------------

  /** The `h` by `w` block of `m` at (r0, c0). */
  function Block(m: Matrix, r0: nat, c0: nat, h: nat, w: nat): (t: Matrix)
    requires r0 + h <= |m| && forall i :: r0 <= i < r0 + h ==> c0 + w <= |m[i]|
    ensures Shaped(t, h, w)
    ensures forall x, y :: 0 <= x < h && 0 <= y < w ==> t[x][y] == m[r0 + x][c0 + y]
  {
    seq(h, x requires 0 <= x < h => m[r0 + x][c0..c0 + w])
  }

  lemma {:induction false} BlockDot(
    a: Matrix, b: Matrix, m: nat, n: nat, k: nat, i0: nat, j0: nat, k0: nat, h: nat, w: nat, d: nat, x: nat, y: nat, t: nat)
    requires Shaped(a, m, k) && Shaped(b, k, n)
    requires i0 + h <= m && j0 + w <= n && k0 + d <= k && x < h && y < w && t <= d
    ensures Dot(a, b, i0 + x, j0 + y, k0 + t) ==
            Dot(a, b, i0 + x, j0 + y, k0) + Dot(Block(a, i0, k0, h, d), Block(b, k0, j0, d, w), x, y, t)
    decreases t
  {
    if t > 0 {
      BlockDot(a, b, m, n, k, i0, j0, k0, h, w, d, x, y, t - 1);
      assert k0 + t - 1 == k0 + (t - 1);
    }
  }

  /** Adds the product of two blocks to the accumulator. */
  method Multiply(p: Matrix, q: Matrix, acc: array2<real>, d: nat)
    requires Shaped(p, acc.Length0, d) && Shaped(q, d, acc.Length1)
    modifies acc
    ensures forall x, y :: 0 <= x < acc.Length0 && 0 <= y < acc.Length1 ==> acc[x, y] == old(acc[x, y]) + Dot(p, q, x, y, d)
  {
    for x := 0 to acc.Length0
      invariant forall i, j :: 0 <= i < x && 0 <= j < acc.Length1 ==> acc[i, j] == old(acc[i, j]) + Dot(p, q, i, j, d)
      invariant forall i, j :: x <= i < acc.Length0 && 0 <= j < acc.Length1 ==> acc[i, j] == old(acc[i, j])
    {
      for y := 0 to acc.Length1
        invariant forall i, j :: 0 <= i < x && 0 <= j < acc.Length1 ==> acc[i, j] == old(acc[i, j]) + Dot(p, q, i, j, d)
        invariant forall j :: 0 <= j < y ==> acc[x, j] == old(acc[x, j]) + Dot(p, q, x, j, d)
        invariant forall j :: y <= j < acc.Length1 ==> acc[x, j] == old(acc[x, j])
        invariant forall i, j :: x < i < acc.Length0 && 0 <= j < acc.Length1 ==> acc[i, j] == old(acc[i, j])
      {
        var sum := acc[x, y];
        for t := 0 to d
          invariant sum == old(acc[x, y]) + Dot(p, q, x, y, t)
        {
          sum := sum + p[x][t] * q[t][y];
        }
        acc[x, y] := sum;
      }
    }
  }

  // -------------------------------------------------------------------------
  // The load barrier
  // -------------------------------------------------------------------------

  function Total(loads: seq<nat>): nat {
    if loads == [] then 0 else Total(loads[..|loads| - 1]) + loads[|loads| - 1]
  }

  lemma {:induction false} TotalWithout(loads: seq<nat>, i: nat)
    requires i < |loads|
    ensures Total(loads) == Total(RemoveAt(loads, i)) + loads[i]
    decreases |loads|
  {
    var n := |loads| - 1;
    var rest := RemoveAt(loads, i);
    if i == n {
      assert rest == loads[..n];
    } else {
      TotalWithout(loads[..n], i);
      assert rest[..|rest| - 1] == RemoveAt(loads[..n], i) && rest[|rest| - 1] == loads[n];
    }
  }

  /**
   A transaction barrier: a phase completes when all announced bytes have arrived.
   The loads are asynchronous; those issued and not arrived are in flight.
   */
  class Barrier {
    var expected: nat
    var arrived: nat
    var inFlight: seq<nat>
    var completed: nat

    constructor ()
      ensures Resting() && completed == 0
    {
      expected, arrived, inFlight, completed := 0, 0, [], 0;
    }

    /** Between two phases. */
    predicate Resting()
      reads this
    {
      expected == arrived == 0 && inFlight == []
    }

    /** Every announced byte has arrived or is in flight. */
    predicate Accounted()
      reads this
    {
      arrived + Total(inFlight) == expected
    }

    method Expect(bytes: nat)
      modifies this`expected
      ensures expected == old(expected) + bytes
    {
      expected := expected + bytes;
    }

    /** Issue an asynchronous load. */
    method Copy(bytes: nat)
      modifies this`inFlight
      ensures inFlight == old(inFlight) + [bytes]
    {
      inFlight := inFlight + [bytes];
    }

    /** One load arrives. */
    method Arrive(i: nat)
      requires i < |inFlight| && Accounted()
      modifies this`inFlight, this`arrived
      ensures Accounted() && inFlight == RemoveAt(old(inFlight), i) && arrived == old(arrived) + old(inFlight)[i]
    {
      TotalWithout(inFlight, i);
      arrived := arrived + inFlight[i];
      inFlight := RemoveAt(inFlight, i);
    }

    /**
     Waiting on the parity of the running phase returns when that phase is complete,
     in whatever order `pick` lets the loads arrive; then nothing is in flight.
     */
    method Wait(phase: nat, pick: nat -> nat)
      requires phase == completed % 2 && Accounted()
      modifies this
      ensures Resting() && completed == old(completed) + 1
    {
      while inFlight != []
        invariant Accounted() && completed == old(completed)
        decreases |inFlight|
      {
        Arrive(pick(|inFlight|) % |inFlight|);
      }
      assert arrived == expected;
      expected, arrived, completed := 0, 0, completed + 1;
    }
  }

  // -------------------------------------------------------------------------
  // The tiled kernel
  // -------------------------------------------------------------------------

  /** Entry (i, j) of A * B + C. */
  function Entry(a: Matrix, b: Matrix, c: Matrix, i: nat, j: nat, k: nat): real
    requires i < |a| && k <= |a[i]| && k <= |b| && forall t :: 0 <= t < k ==> j < |b[t]|
    requires i < |c| && j < |c[i]|
  {
    c[i][j] + Dot(a, b, i, j, k)
  }

  datatype Problem = Problem(a: Matrix, b: Matrix, c: Matrix, m: nat, n: nat, k: nat, bm: nat, bn: nat, bk: nat)

  /** The shapes fit together and the tile divides them. */
  predicate Divides(p: Problem) {
    && Shaped(p.a, p.m, p.k) && Shaped(p.b, p.k, p.n) && Shaped(p.c, p.m, p.n)
    && p.bm > 0 && p.bn > 0 && p.bk > 0 && p.m % p.bm == 0 && p.n % p.bn == 0 && p.k % p.bk == 0
  }

  /** The accumulator of the block at (i0, j0) holds C plus the first `k0` terms of the product. */
  ghost predicate Accumulated(p: Problem, acc: array2<real>, i0: nat, j0: nat, k0: nat)
    requires Divides(p) && i0 + p.bm <= p.m && j0 + p.bn <= p.n && k0 <= p.k
    reads acc
  {
    && acc.Length0 == p.bm && acc.Length1 == p.bn
    && forall x, y :: 0 <= x < p.bm && 0 <= y < p.bn ==> acc[x, y] == Entry(p.a, p.b, p.c, i0 + x, j0 + y, k0)
  }

  /** Adds one pair of blocks to the accumulator. */
  method AddBlocks(p: Problem, acc: array2<real>, i0: nat, j0: nat, k0: nat)
    requires Divides(p) && i0 + p.bm <= p.m && j0 + p.bn <= p.n && k0 + p.bk <= p.k
    requires Accumulated(p, acc, i0, j0, k0)
    modifies acc
    ensures Accumulated(p, acc, i0, j0, k0 + p.bk)
  {
    var at := Block(p.a, i0, k0, p.bm, p.bk);
    var bt := Block(p.b, k0, j0, p.bk, p.bn);
    Multiply(at, bt, acc, p.bk);
    forall x, y | 0 <= x < p.bm && 0 <= y < p.bn
      ensures acc[x, y] == Entry(p.a, p.b, p.c, i0 + x, j0 + y, k0 + p.bk)
    {
      BlockDot(p.a, p.b, p.m, p.n, p.k, i0, j0, k0, p.bm, p.bn, p.bk, x, y, p.bk);
    }
  }

  /** Loads the block of C into a new accumulator. */
  method LoadC(p: Problem, i0: nat, j0: nat) returns (acc: array2<real>)
    requires Divides(p) && i0 + p.bm <= p.m && j0 + p.bn <= p.n
    ensures fresh(acc) && Accumulated(p, acc, i0, j0, 0)
  {
    acc := new real[p.bm, p.bn];
    forall x, y | 0 <= x < p.bm && 0 <= y < p.bn {
      acc[x, y] := p.c[i0 + x][j0 + y];
    }
  }

  /** Announces the loads of one phase, issues them, waits for them in any order and flips the phase. */
  method AwaitLoads(bar: Barrier, phase: nat, loads: seq<nat>, pick: nat -> nat) returns (next: nat)
    requires bar.Resting() && phase == bar.completed % 2
    modifies bar
    ensures bar.Resting() && bar.completed == old(bar.completed) + 1 && next == bar.completed % 2
  {
    bar.Expect(Total(loads));
    for i := 0 to |loads|
      invariant bar.inFlight == loads[..i] && bar.arrived == 0 && bar.expected == Total(loads)
      invariant bar.completed == old(bar.completed)
    {
      assert loads[..i + 1] == loads[..i] + [loads[i]];
      bar.Copy(loads[i]);
    }
    assert loads[..|loads|] == loads;
    bar.Wait(phase, pick);
    next := 1 - phase;
  }

  lemma NextSlot(p: Problem, q: nat)
    requires Divides(p) && q < p.k / p.bk
    ensures q * p.bk + p.bk == (q + 1) * p.bk <= p.k
  {
    SlotFits(q, p.k / p.bk, p.bk);
  }

  lemma WholeSlots(p: Problem)
    requires Divides(p)
    ensures p.k / p.bk * p.bk == p.k
  {
  }

  /** Computes the block of A * B + C at (i0, j0); the barrier phase is the parity of the completed waits. */
  method ComputeBlock(p: Problem, i0: nat, j0: nat, pick: nat -> nat) returns (acc: array2<real>, waits: nat, phase: nat)
    requires Divides(p) && i0 + p.bm <= p.m && j0 + p.bn <= p.n
    ensures fresh(acc) && Accumulated(p, acc, i0, j0, p.k)
    ensures waits == 1 + p.k / p.bk && phase == waits % 2
  {
    var bar := new Barrier();
    phase := AwaitLoads(bar, 0, [p.bm * p.bn], pick);
    acc := LoadC(p, i0, j0);
    var k0 := 0;
    for q := 0 to p.k / p.bk
      invariant bar.Resting() && bar.completed == 1 + q && phase == bar.completed % 2
      invariant k0 == q * p.bk <= p.k && Accumulated(p, acc, i0, j0, k0)
    {
      NextSlot(p, q);
      phase := AwaitLoads(bar, phase, [p.bm * p.bk, p.bk * p.bn], pick);
      AddBlocks(p, acc, i0, j0, k0);
      k0 := k0 + p.bk;
    }
    WholeSlots(p);
    waits := bar.completed;
  }

  /** Entry (i, j) lies in the block of program (u, v). */
  predicate Covers(p: Problem, u: nat, v: nat, i: nat, j: nat) {
    u * p.bm <= i < u * p.bm + p.bm && v * p.bn <= j < v * p.bn + p.bn
  }

  predicate InGrid(p: Problem, u: nat, v: nat)
    requires p.bm > 0 && p.bn > 0
  {
    u < p.m / p.bm && v < p.n / p.bn
  }

  lemma BlockFits(p: Problem, u: nat, v: nat)
    requires Divides(p) && InGrid(p, u, v)
    ensures u * p.bm + p.bm <= p.m && v * p.bn + p.bn <= p.n
  {
    SlotFits(u, p.m / p.bm, p.bm);
    SlotFits(v, p.n / p.bn, p.bn);
  }

  /** Index `i` lies in slot `q` exactly when `q` is its quotient. */
  lemma SlotOf(i: nat, d: nat, q: nat)
    requires d > 0
    ensures q * d <= i < q * d + d <==> q == i / d
  {
    if q * d <= i < q * d + d {
      RemainderOf(i, d, q, i - q * d);
    }
  }

  /** Each entry is covered by exactly one program of the grid. */
  lemma OneProgram(p: Problem, i: nat, j: nat, u: nat, v: nat)
    requires Divides(p) && i < p.m && j < p.n
    ensures Covers(p, u, v, i, j) <==> u == i / p.bm && v == j / p.bn
    ensures InGrid(p, i / p.bm, j / p.bn)
  {
    SlotOf(i, p.bm, u);
    SlotOf(j, p.bn, v);
    QuotientBelow(i, p.m, p.bm);
    QuotientBelow(j, p.n, p.bn);
  }

  lemma QuotientBelow(i: nat, n: nat, d: nat)
    requires d > 0 && n % d == 0 && i < n
    ensures i / d < n / d
  {
    var gap := n / d - i / d;
    assert n / d * d == n && i / d * d <= i;
    assert gap * d == n / d * d - i / d * d;
    PositiveFactor(gap, d);
  }

  lemma PositiveFactor(x: int, d: nat)
    requires x * d > 0
    ensures x > 0
  {
  }

  /** One program of the tiled kernel. */
  method TileProgram(p: Problem, d: array2<real>, u: nat, v: nat, pick: nat -> nat)
    requires Divides(p) && InGrid(p, u, v) && d.Length0 == p.m && d.Length1 == p.n
    modifies d
    ensures forall i, j :: 0 <= i < p.m && 0 <= j < p.n ==>
      d[i, j] == if Covers(p, u, v, i, j) then Entry(p.a, p.b, p.c, i, j, p.k) else old(d[i, j])
  {
    BlockFits(p, u, v);
    var i0, j0 := u * p.bm, v * p.bn;
    var acc, waits, phase := ComputeBlock(p, i0, j0, pick);
    forall x, y | 0 <= x < p.bm && 0 <= y < p.bn {
      d[i0 + x, j0 + y] := acc[x, y];
    }
    forall i, j | 0 <= i < p.m && 0 <= j < p.n
      ensures d[i, j] == if Covers(p, u, v, i, j) then Entry(p.a, p.b, p.c, i, j, p.k) else old(d[i, j])
    {
      if Covers(p, u, v, i, j) {
        assert i == i0 + (i - i0) && j == j0 + (j - j0);
        assert acc[i - i0, j - j0] == Entry(p.a, p.b, p.c, i, j, p.k);
      }
    }
  }

  /** Every program of the grid occurs in `launch`, and nothing else does. */
  ghost predicate IsLaunch(p: Problem, launch: seq<(nat, nat)>)
    requires p.bm > 0 && p.bn > 0
  {
    && (forall u: nat, v: nat :: InGrid(p, u, v) ==> (u, v) in launch)
    && (forall t :: 0 <= t < |launch| ==> InGrid(p, launch[t].0, launch[t].1))
  }

  /** The programs may run in any order. */
  method TiledGemm(p: Problem, d: array2<real>, launch: seq<(nat, nat)>, pick: nat -> nat)
    requires Divides(p) && IsLaunch(p, launch) && d.Length0 == p.m && d.Length1 == p.n
    modifies d
    ensures forall i, j :: 0 <= i < p.m && 0 <= j < p.n ==> d[i, j] == Entry(p.a, p.b, p.c, i, j, p.k)
  {
    for t := 0 to |launch|
      invariant forall s, i, j :: 0 <= s < t && 0 <= i < p.m && 0 <= j < p.n && CoversAt(p, launch, s, i, j) ==>
        d[i, j] == Entry(p.a, p.b, p.c, i, j, p.k)
    {
      TileProgram(p, d, launch[t].0, launch[t].1, pick);
    }
    forall i, j | 0 <= i < p.m && 0 <= j < p.n ensures d[i, j] == Entry(p.a, p.b, p.c, i, j, p.k) {
      var s := SomeProgram(p, launch, i, j);
    }
  }

  predicate CoversAt(p: Problem, launch: seq<(nat, nat)>, t: nat, i: nat, j: nat) {
    t < |launch| && Covers(p, launch[t].0, launch[t].1, i, j)
  }

  lemma SomeProgram(p: Problem, launch: seq<(nat, nat)>, i: nat, j: nat) returns (t: nat)
    requires Divides(p) && IsLaunch(p, launch) && i < p.m && j < p.n
    ensures CoversAt(p, launch, t, i, j) && launch[t] == (i / p.bm, j / p.bn)
  {
    OneProgram(p, i, j, i / p.bm, j / p.bn);
    assert (i / p.bm, j / p.bn) in launch;
    t :| 0 <= t < |launch| && launch[t] == (i / p.bm, j / p.bn);
  }

  /** In a launch without repetitions each entry is written by exactly one program. */
  lemma WrittenOnce(p: Problem, launch: seq<(nat, nat)>, i: nat, j: nat) returns (t: nat)
    requires Divides(p) && IsLaunch(p, launch) && i < p.m && j < p.n
    requires Distinct(launch)
    ensures forall w: nat :: CoversAt(p, launch, w, i, j) <==> w == t
  {
    t := SomeProgram(p, launch, i, j);
    forall w: nat ensures CoversAt(p, launch, w, i, j) <==> w == t {
      if w < |launch| {
        OneProgram(p, i, j, launch[w].0, launch[w].1);
      }
    }
  }

  /** Division rounded up. */
  function CeilDiv(n: nat, d: nat): nat
    requires d > 0
  {
    (n + d - 1) / d
  }

  /** The programs of a launch with the given grid. */
  ghost function Programs(rows: nat, cols: nat): set<(nat, nat)> {
    set u: nat, v: nat | u < rows && v < cols :: (u, v)
  }

  lemma CeilOfMultiple(n: nat, d: nat)
    requires d > 0 && n % d == 0
    ensures CeilDiv(n, d) == n / d
  {
    assert n == n / d * d;
    RemainderOf(n + d - 1, d, n / d, d - 1);
  }

  /** A launch over the rounded-up grid starts exactly the programs that the tiles need. */
  lemma GridIsLaunch(p: Problem, launch: seq<(nat, nat)>)
    requires Divides(p) && Members(launch) == Programs(CeilDiv(p.m, p.bm), CeilDiv(p.n, p.bn))
    ensures IsLaunch(p, launch)
  {
    CeilOfMultiple(p.m, p.bm);
    CeilOfMultiple(p.n, p.bn);
    forall u: nat, v: nat | InGrid(p, u, v) ensures (u, v) in launch {
      assert (u, v) in Members(launch);
    }
    forall t | 0 <= t < |launch| ensures InGrid(p, launch[t].0, launch[t].1) {
      assert launch[t] in Members(launch);
    }
  }

  /**
   The launch wrapper: a shape that does not fit or that the tile does not divide
   is refused.  The programs of the grid may be started in any order.
   */
  method RunTiled(
    a: Matrix, b: Matrix, c: Matrix, d: array2<real>, ma: nat, ka: nat, kb: nat, nb: nat, mc: nat, nc: nat,
    bm: nat, bn: nat, bk: nat, launch: seq<(nat, nat)>, pick: nat -> nat) returns (ok: bool)
    requires Shaped(a, ma, ka) && Shaped(b, kb, nb) && Shaped(c, mc, nc) && bm > 0 && bn > 0 && bk > 0
    requires Members(launch) == Programs(CeilDiv(mc, bm), CeilDiv(nc, bn))
    modifies d
    ensures ok <==> (kb == ka && ma == mc && nb == nc && d.Length0 == mc && d.Length1 == nc &&
                     ka % bk == 0 && mc % bm == 0 && nc % bn == 0)
    ensures ok ==> forall i, j :: 0 <= i < mc && 0 <= j < nc ==> d[i, j] == c[i][j] + Dot(a, b, i, j, ka)
  {
    if ka % bk != 0 || kb != ka {
      return false;
    }
    if ma != mc || nb != nc || d.Length0 != mc || d.Length1 != nc {
      return false;
    }
    if mc % bm != 0 || nc % bn != 0 {
      return false;
    }
    var p := Problem(a, b, c, mc, nc, ka, bm, bn, bk);
    GridIsLaunch(p, launch);
    TiledGemm(p, d, launch, pick);
    return true;
  }

  /** The scalar launch computes the plain product in any order of its programs. */
  method ScalarGemm(a: Matrix, b: Matrix, c: array2<real>, k: nat, launch: seq<(nat, nat)>)
    requires Shaped(a, c.Length0, k) && Shaped(b, k, c.Length1)
    requires forall i: nat, j: nat :: i < c.Length0 && j < c.Length1 ==> (i, j) in launch
    requires forall t :: 0 <= t < |launch| ==> launch[t].0 < c.Length0 && launch[t].1 < c.Length1
    modifies c
    ensures forall i, j :: 0 <= i < c.Length0 && 0 <= j < c.Length1 ==> c[i, j] == Dot(a, b, i, j, k)
  {
    for t := 0 to |launch|
      invariant forall i, j :: 0 <= i < c.Length0 && 0 <= j < c.Length1 && (i, j) in launch[..t] ==>
        c[i, j] == Dot(a, b, i, j, k)
    {
      assert launch[..t + 1] == launch[..t] + [launch[t]];
      ScalarProgram(a, b, c, launch[t].0, launch[t].1, k);
    }
    assert launch[..|launch|] == launch;
  }
}
