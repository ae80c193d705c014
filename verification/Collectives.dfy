/**
 The collective operations of the mock communication runtime, on one buffer per
 rank.  Scattering the reduced chunks and gathering them again is an all-reduce.
 */
module Collectives {
  import opened Arithmetic

  /** One buffer per rank, at least one rank, all of one length. */
  predicate Valid(world: nat, buffers: seq<Buffer>) {
    && |buffers| == world && world > 0
    && forall r :: 0 <= r < world ==> |buffers[r]| == |buffers[0]|
  }

  /** Sum over the ranks of entry `i`. */
  function SumAt(buffers: seq<Buffer>, i: nat): real
    requires forall r :: 0 <= r < |buffers| ==> i < |buffers[r]|
  {
    if buffers == [] then 0.0
    else SumAt(buffers[..|buffers| - 1], i) + buffers[|buffers| - 1][i]
  }

  function Reduced(world: nat, buffers: seq<Buffer>): (r: Buffer)
    requires Valid(world, buffers)
    ensures |r| == |buffers[0]|
  {
    seq(|buffers[0]|, i requires 0 <= i < |buffers[0]| => SumAt(buffers, i))
  }

  function Repeat(world: nat, b: Buffer): seq<Buffer> {
    seq(world, _ => b)
  }

  /** `None` stands for ValueError, here and below. */
  function AllReduce(world: nat, buffers: seq<Buffer>): Option<seq<Buffer>> {
    if !Valid(world, buffers) then None else Some(Repeat(world, Reduced(world, buffers)))
  }

  /** Consecutive pieces of length `size`; the last one may be shorter. */
  function Chunks(b: Buffer, size: nat): seq<Buffer>
    requires size > 0
  {
    if |b| == 0 then []
    else if |b| <= size then [b]
    else [b[..size]] + Chunks(b[size..], size)
  }

  function ReduceScatter(world: nat, buffers: seq<Buffer>): Option<seq<Buffer>> {
    if !Valid(world, buffers) then None
    else if |buffers[0]| % world != 0 then None
    else
      var size := |buffers[0]| / world;
      if size == 0 then None     // a range with step zero
      else Some(Chunks(Reduced(world, buffers), size))
  }

  function Concat(buffers: seq<Buffer>): Buffer {
    if buffers == [] then [] else buffers[0] + Concat(buffers[1..])
  }

  function AllGather(world: nat, buffers: seq<Buffer>): Option<seq<Buffer>> {
    if !Valid(world, buffers) then None else Some(Repeat(world, Concat(buffers)))
  }

  lemma {:induction false} ConcatChunks(b: Buffer, size: nat)
    requires size > 0
    ensures Concat(Chunks(b, size)) == b
    decreases |b|
  {
    if |b| > size {
      ConcatChunks(b[size..], size);
      var c := Chunks(b, size);
      assert c[1..] == Chunks(b[size..], size);
      assert b == b[..size] + b[size..];
    } else if |b| > 0 {
      assert Chunks(b, size)[1..] == [];
      assert Concat([b]) == b + [];
    }
  }

  /** A buffer of `n` times `size` entries has `n` chunks, all of length `size`. */
  lemma {:induction false} EvenChunks(b: Buffer, size: nat, n: nat)
    requires size > 0 && |b| == n * size
    ensures |Chunks(b, size)| == n && forall r :: 0 <= r < n ==> |Chunks(b, size)[r]| == size
    decreases n
  {
    if n > 1 {
      assert |b[size..]| == (n - 1) * size;
      MulAtLeast(n - 1, size);
      EvenChunks(b[size..], size, n - 1);
    }
  }

  lemma QuotientTimes(n: nat, d: nat)
    requires d > 0 && n % d == 0
    ensures n == d * (n / d) && (n / d == 0 <==> n == 0)
  {
  }

  /** Reduce-scatter accepts exactly the non-empty buffers of equal length divisible by the world size. */
  lemma ReduceScatterIff(world: nat, buffers: seq<Buffer>)
    ensures ReduceScatter(world, buffers).Some? <==>
      Valid(world, buffers) && |buffers[0]| > 0 && |buffers[0]| % world == 0
  {
    if Valid(world, buffers) && |buffers[0]| % world == 0 {
      QuotientTimes(|buffers[0]|, world);
    }
  }

  /** Whenever reduce-scatter is accepted, gathering its chunks gives every rank the all-reduce. */
  lemma ScatterThenGather(world: nat, buffers: seq<Buffer>)
    requires ReduceScatter(world, buffers).Some?
    ensures AllGather(world, ReduceScatter(world, buffers).value) == AllReduce(world, buffers)
    ensures AllReduce(world, buffers).Some?
  {
    var b := Reduced(world, buffers);
    var size := |b| / world;
    QuotientTimes(|b|, world);
    EvenChunks(b, size, world);
    ConcatChunks(b, size);
  }

  lemma {:induction false} SumSplits(p: seq<Buffer>, q: seq<Buffer>, i: nat)
    requires forall r :: 0 <= r < |p| ==> i < |p[r]|
    requires forall r :: 0 <= r < |q| ==> i < |q[r]|
    ensures SumAt(p + q, i) == SumAt(p, i) + SumAt(q, i)
    decreases |q|
  {
    if q == [] {
      assert p + q == p;
    } else {
      SumSplits(p, q[..|q| - 1], i);
      assert (p + q)[..|p + q| - 1] == p + q[..|q| - 1];
    }
  }

  lemma SumWithout(q: seq<Buffer>, k: nat, i: nat)
    requires k < |q| && forall r :: 0 <= r < |q| ==> i < |q[r]|
    ensures forall r :: 0 <= r < |RemoveAt(q, k)| ==> i < |RemoveAt(q, k)[r]|
    ensures SumAt(q, i) == SumAt(RemoveAt(q, k), i) + q[k][i]
  {
    var front, back := q[..k], q[k + 1..];
    assert q == front + ([q[k]] + back);
    SumSplits(front, [q[k]] + back, i);
    SumSplits([q[k]], back, i);
    SumSplits(front, back, i);
    assert SumAt([q[k]], i) == SumAt([], i) + q[k][i];
  }

  lemma TakeOne<T>(a: multiset<T>, b: multiset<T>, x: T)
    requires a + multiset{x} == b + multiset{x}
    ensures a == b
  {
    assert a == (a + multiset{x}) - multiset{x};
    assert b == (b + multiset{x}) - multiset{x};
  }

  /** The sum of buffers of which all but one are zero at `i` is the entry of that one. */
  lemma {:induction false} SumPicks(buffers: seq<Buffer>, i: nat, r: nat)
    requires r < |buffers| && forall q :: 0 <= q < |buffers| ==> i < |buffers[q]|
    requires forall q :: 0 <= q < |buffers| && q != r ==> buffers[q][i] == 0.0
    ensures SumAt(buffers, i) == buffers[r][i]
    decreases |buffers|
  {
    var n := |buffers| - 1;
    if r < n {
      SumPicks(buffers[..n], i, r);
    } else {
      SumOfZeros(buffers[..n], i);
    }
  }

  lemma {:induction false} SumOfZeros(buffers: seq<Buffer>, i: nat)
    requires forall q :: 0 <= q < |buffers| ==> i < |buffers[q]| && buffers[q][i] == 0.0
    ensures SumAt(buffers, i) == 0.0
    decreases |buffers|
  {
    if buffers != [] {
      SumOfZeros(buffers[..|buffers| - 1], i);
    }
  }

  /** The sum over the ranks is additive. */
  lemma {:induction false} SumAdds(x: seq<Buffer>, y: seq<Buffer>, z: seq<Buffer>, i: nat)
    requires |x| == |y| == |z|
    requires forall q :: 0 <= q < |x| ==> i < |x[q]| && i < |y[q]| && i < |z[q]| && z[q][i] == x[q][i] + y[q][i]
    ensures SumAt(z, i) == SumAt(x, i) + SumAt(y, i)
    decreases |x|
  {
    if x != [] {
      var n := |x| - 1;
      SumAdds(x[..n], y[..n], z[..n], i);
    }
  }

  // -------------------------------------------------------------------------
  // The entries of the results
  // -------------------------------------------------------------------------

  /**
   All-reduce accepts one buffer for each of at least one rank, all of one length;
   then entry `i` of every rank is the sum over the ranks of entry `i`.
   */
  lemma AllReduceEntries(world: nat, buffers: seq<Buffer>)
    ensures AllReduce(world, buffers).Some? <==>
      |buffers| == world > 0 && forall p, q :: 0 <= p < world && 0 <= q < world ==> |buffers[p]| == |buffers[q]|
    ensures AllReduce(world, buffers).Some? ==>
      var out := AllReduce(world, buffers).value;
      && |out| == world
      && forall r :: 0 <= r < world ==>
           |out[r]| == |buffers[0]| && forall i :: 0 <= i < |buffers[0]| ==> out[r][i] == SumAt(buffers, i)
  {
  }

  lemma {:induction false} ChunkEntry(b: Buffer, size: nat, n: nat, r: nat, i: nat)
    requires size > 0 && |b| == n * size && r < n && i < size
    ensures r * size + i < |b| && |Chunks(b, size)| == n && |Chunks(b, size)[r]| == size
    ensures Chunks(b, size)[r][i] == b[r * size + i]
    decreases n
  {
    EvenChunks(b, size, n);
    SlotFits(r, n, size);
    if n > 1 && r > 0 {
      assert |b[size..]| == (n - 1) * size;
      ChunkEntry(b[size..], size, n - 1, r - 1, i);
      MulAtLeast(n, size);
      assert (r - 1) * size + i + size == r * size + i;
      ChunksTail(b, size);
    }
  }

  lemma ChunksTail(b: Buffer, size: nat)
    requires size > 0 && |b| > size
    ensures Chunks(b, size) == [b[..size]] + Chunks(b[size..], size)
  {
  }

  lemma ReduceScatterShape(world: nat, buffers: seq<Buffer>)
    requires ReduceScatter(world, buffers).Some?
    ensures world > 0 && |buffers| == world && forall r :: 0 <= r < world ==> |buffers[r]| == |buffers[0]|
    ensures var out, size := ReduceScatter(world, buffers).value, |buffers[0]| / world;
      world * size == |buffers[0]| && |out| == world && forall r :: 0 <= r < world ==> |out[r]| == size
  {
    QuotientTimes(|buffers[0]|, world);
    EvenChunks(Reduced(world, buffers), |buffers[0]| / world, world);
  }

  /** Rank `r` of the reduce-scatter has chunk `r` of the sums. */
  lemma ReduceScatterEntry(world: nat, buffers: seq<Buffer>, r: nat, i: nat)
    requires ReduceScatter(world, buffers).Some? && r < world && i < |buffers[0]| / world
    ensures |buffers| == world && forall q :: 0 <= q < world ==> |buffers[q]| == |buffers[0]|
    ensures var out, size := ReduceScatter(world, buffers).value, |buffers[0]| / world;
      && |out| == world && |out[r]| == size && r * size + i < |buffers[0]|
      && out[r][i] == SumAt(buffers, r * size + i)
  {
    ReduceScatterShape(world, buffers);
    ChunkEntry(Reduced(world, buffers), |buffers[0]| / world, world, r, i);
  }

  lemma {:induction false} ConcatEntry(buffers: seq<Buffer>, len: nat, q: nat, i: nat)
    requires (forall r :: 0 <= r < |buffers| ==> |buffers[r]| == len) && q < |buffers| && i < len
    ensures |Concat(buffers)| == |buffers| * len && q * len + i < |Concat(buffers)|
    ensures Concat(buffers)[q * len + i] == buffers[q][i]
    decreases |buffers|
  {
    ConcatLength(buffers, len);
    SlotFits(q, |buffers|, len);
    if q > 0 {
      ConcatEntry(buffers[1..], len, q - 1, i);
      assert (q - 1) * len + i + len == q * len + i;
    }
  }

  lemma {:induction false} ConcatLength(buffers: seq<Buffer>, len: nat)
    requires forall r :: 0 <= r < |buffers| ==> |buffers[r]| == len
    ensures |Concat(buffers)| == |buffers| * len
    decreases |buffers|
  {
    if buffers != [] {
      ConcatLength(buffers[1..], len);
      assert |buffers| * len == (|buffers| - 1) * len + len;
    }
  }

  lemma AllGatherShape(world: nat, buffers: seq<Buffer>)
    ensures AllGather(world, buffers).Some? <==>
      |buffers| == world > 0 && forall p, q :: 0 <= p < world && 0 <= q < world ==> |buffers[p]| == |buffers[q]|
    ensures AllGather(world, buffers).Some? ==>
      var out := AllGather(world, buffers).value;
      |out| == world && forall r :: 0 <= r < world ==> |out[r]| == world * |buffers[0]|
  {
    if AllGather(world, buffers).Some? {
      ConcatLength(buffers, |buffers[0]|);
    }
  }

  /** All-gather gives every rank the buffers one after the other in rank order. */
  lemma AllGatherEntry(world: nat, buffers: seq<Buffer>, r: nat, q: nat, i: nat)
    requires AllGather(world, buffers).Some? && r < world && q < world && i < |buffers[0]|
    ensures var out, len := AllGather(world, buffers).value, |buffers[0]|;
      |out| == world && q * len + i < |out[r]| && q < |buffers| && i < |buffers[q]| && out[r][q * len + i] == buffers[q][i]
  {
    ConcatEntry(buffers, |buffers[0]|, q, i);
  }

  /** The sum is the same for every order of the ranks. */
  lemma {:induction false} SumPermutes(p: seq<Buffer>, q: seq<Buffer>, i: nat)
    requires multiset(p) == multiset(q)
    requires forall r :: 0 <= r < |p| ==> i < |p[r]|
    requires forall r :: 0 <= r < |q| ==> i < |q[r]|
    ensures SumAt(p, i) == SumAt(q, i)
    decreases |p|
  {
    assert |p| == |multiset(p)| && |q| == |multiset(q)|;
    if p != [] {
      var n := |p| - 1;
      assert p[n] in multiset(q);
      var k :| 0 <= k < |q| && q[k] == p[n];
      RemoveMultiset(p, n);
      RemoveMultiset(q, k);
      TakeOne(multiset(RemoveAt(p, n)), multiset(RemoveAt(q, k)), p[n]);
      SumWithout(p, n, i);
      SumWithout(q, k, i);
      SumPermutes(RemoveAt(p, n), RemoveAt(q, k), i);
    }
  }

  /** Renumbering the ranks does not change the all-reduce. */
  lemma AllReducePermutes(world: nat, p: seq<Buffer>, q: seq<Buffer>)
    requires multiset(p) == multiset(q)
    ensures AllReduce(world, p) == AllReduce(world, q)
  {
    assert |p| == |multiset(p)| == |multiset(q)| == |q|;
    forall r | 0 <= r < |p| ensures p[r] in q {
      assert p[r] in multiset(q);
    }
    forall r | 0 <= r < |q| ensures q[r] in p {
      assert q[r] in multiset(p);
    }
    if Valid(world, p) {
      ValidPermutes(world, p, q);
      forall i | 0 <= i < |p[0]| ensures SumAt(p, i) == SumAt(q, i) {
        SumPermutes(p, q, i);
      }
      assert Reduced(world, p) == Reduced(world, q);
    } else if Valid(world, q) {
      ValidPermutes(world, q, p);
    }
  }

  lemma ValidPermutes(world: nat, p: seq<Buffer>, q: seq<Buffer>)
    requires Valid(world, p) && |q| == |p| && forall r :: 0 <= r < |q| ==> q[r] in p
    ensures Valid(world, q) && |q[0]| == |p[0]|
  {
  }
}
