/** Facts about remainders and finite collections that the other modules share. */
module Arithmetic {

  datatype Option<T> = None | Some(value: T)

  /** The contents of one buffer. */
  type Buffer = seq<real>

  ghost predicate Distinct<T>(s: seq<T>) {
    forall i, j :: 0 <= i < j < |s| ==> s[i] != s[j]
  }

  ghost function Members<T>(s: seq<T>): set<T> {
    set x | x in s
  }

  /** Distinct elements are as many as their sequence is long. */
  lemma {:induction false} DistinctSize<T>(s: seq<T>)
    requires Distinct(s)
    ensures |Members(s)| == |s|
    decreases |s|
  {
    if s == [] {
      assert Members(s) == {};
    } else {
      var n := |s| - 1;
      DistinctSize(s[..n]);
      assert s == s[..n] + [s[n]];
      assert Members(s) == Members(s[..n]) + {s[n]};
      assert s[n] !in s[..n];
    }
  }

  function RemoveAt<T>(s: seq<T>, i: nat): seq<T> {
    if i < |s| then s[..i] + s[i + 1..] else s
  }

  lemma RemoveMultiset<T>(s: seq<T>, i: nat)
    requires i < |s|
    ensures multiset(RemoveAt(s, i)) + multiset{s[i]} == multiset(s)
  {
    assert s == s[..i] + [s[i]] + s[i + 1..];
  }

  /** The set {0, ..., n-1}. */
  ghost function UpTo(n: nat): (r: set<nat>)
    ensures |r| == n && forall x: nat :: x in r <==> x < n
  {
    if n == 0 then {} else UpTo(n - 1) + {n - 1}
  }

  lemma SubsetSize<T>(a: set<T>, b: set<T>)
    requires a <= b
    ensures |a| <= |b| && (|a| == |b| ==> a == b)
  {
    assert b == a + (b - a);
    if a != b {
      var x :| x in b - a;
    }
  }

  /** A set of numbers below `n` has at most `n` elements, and `n` only if it has all of them. */
  lemma BoundedSet(t: set<nat>, n: nat)
    requires forall x :: x in t ==> x < n
    ensures |t| <= n
    ensures |t| == n ==> forall x :: 0 <= x < n ==> x in t
  {
    assert t <= UpTo(n);
    SubsetSize(t, UpTo(n));
  }

  lemma MulAtLeast(q: int, d: nat)
    requires q >= 1
    ensures q * d >= d
  {
    assert (q - 1) * d >= 0;
  }

  lemma RemainderOf(x: nat, d: nat, q: nat, r: nat)
    requires r < d && x == q * d + r
    ensures x / d == q && x % d == r
  {
    var q', r' := x / d, x % d;
    assert x == q' * d + r';
    assert (q - q') * d == r' - r;
    if q > q' {
      MulAtLeast(q - q', d);
      assert false;
    } else if q < q' {
      assert (q' - q) * d == r - r';
      MulAtLeast(q' - q, d);
      assert false;
    }
  }

  lemma AddStride(i: nat, d: nat)
    requires d > 0
    ensures (i + d) % d == i % d
  {
    assert (i / d + 1) * d == i / d * d + d;
    RemainderOf(i + d, d, i / d + 1, i % d);
  }

  /** The next number with the same remainder is one stride away. */
  lemma NextInStride(j: nat, i: nat, d: nat)
    requires d > 0 && j % d == i % d && i < j
    ensures i + d <= j
  {
    var q := j / d - i / d;
    assert j - i == q * d by {
      assert j == j / d * d + j % d && i == i / d * d + i % d;
    }
    if q >= 1 {
      MulAtLeast(q, d);
    } else if q <= -1 {
      MulAtLeast(-q, d);
      assert false;
    }
  }

  /** Slot `q` of `n` slots of size `d` ends before the end. */
  lemma SlotFits(q: nat, n: nat, d: nat)
    requires q < n
    ensures q * d + d <= n * d
  {
    MulAtLeast(n - q, d);
    assert (n - q) * d == n * d - q * d;
  }
}
