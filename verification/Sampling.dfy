/**
 The top-k, top-p and min-p sampling kernels on one row, and their host
 references.  A kernel takes its tokens by repeated masked maximum and finds the
 tokens it has taken by reading back its own output.
 */
module Sampling {
  import opened Arithmetic
  import opened SampleOrder

  /** Whether an earlier rank of this row has taken `col`. */
  method AlreadySelected(indices: array<int>, base: nat, rank: nat, col: nat) returns (found: bool)
    requires base + rank <= indices.Length
    ensures found <==> exists a :: base <= a < base + rank && indices[a] == col
  {
    found := false;
    for previous := 0 to rank
      invariant found <==> exists a :: base <= a < base + previous && indices[a] == col
    {
      found := found || indices[base + previous] == col;
    }
  }

  /** Token `y` may be taken: its value is high enough and it is not taken yet. */
  ghost predicate Open(row: seq<real>, low: real, taken: seq<int>, y: nat) {
    y < |row| && row[y] >= LOWEST && row[y] >= low && y !in taken
  }

  /** The first open token below `n`, or `|row|` if there is none. */
  ghost predicate IsBest(row: seq<real>, low: real, taken: seq<int>, n: nat, value: real, index: nat) {
    && index <= |row|
    && (index < |row| ==>
          index < n && Open(row, low, taken, index) && value == row[index] &&
          forall y :: 0 <= y < n && y != index && Open(row, low, taken, y) ==> Before(row, index, y))
    && (index == |row| ==> value == LOWEST && forall y :: 0 <= y < n ==> !Open(row, low, taken, y))
  }

  /** One masked maximum over the row. */
  method PickBest(row: seq<real>, low: real, indices: array<int>, base: nat, rank: nat)
    returns (bestValue: real, bestIndex: nat)
    requires base + rank <= indices.Length
    ensures IsBest(row, low, indices[..][base..base + rank], |row|, bestValue, bestIndex)
  {
    bestValue, bestIndex := LOWEST, |row|;
    ghost var taken := indices[..][base..base + rank];
    for col := 0 to |row|
      invariant IsBest(row, low, taken, col, bestValue, bestIndex)
    {
      var selected := AlreadySelected(indices, base, rank, col);
      assert selected <==> col in taken;
      var value := row[col];
      if !selected && value >= low && (value > bestValue || (value == bestValue && col < bestIndex)) {
        bestValue, bestIndex := value, col;
      }
    }
  }

  // -------------------------------------------------------------------------
  // What repeated masked maximum takes
  // -------------------------------------------------------------------------

  /** The output indices when the first `m` tokens of `s` are taken: cut at `k` or filled up with `pad`. */
  function Indices(s: seq<nat>, m: nat, k: nat, pad: int): seq<int>
    requires m <= |s|
  {
    seq(k, a requires 0 <= a < k => if a < m then s[a] else pad)
  }

  function Values(row: seq<real>, s: seq<nat>, m: nat, k: nat, pad: real): seq<real>
    requires InRange(row, s) && m <= |s|
  {
    seq(k, a requires 0 <= a < k => if a < m then row[s[a]] else pad)
  }

  function Floor(low: real): real {
    if low >= LOWEST then low else LOWEST
  }

  lemma TakenSoFar(row: seq<real>, r: seq<nat>, rank: nat, pad: int, y: nat)
    requires InOrder(row, r) && y < |row| && !(0 <= pad < |row|)
    ensures y in Indices(r, |r|, rank, pad) <==> exists a :: 0 <= a < rank && a < |r| && r[a] == y
  {
    var t := Indices(r, |r|, rank, pad);
    if y in t {
      var a :| 0 <= a < |t| && t[a] == y;
      assert a < |r| && r[a] == y;
    }
    if a :| 0 <= a < rank && a < |r| && r[a] == y {
      assert t[a] == y;
    }
  }

  /** The next masked maximum is the next token of the ranking, or none if the ranking is used up. */
  lemma NextBest(row: seq<real>, low: real, rank: nat, pad: int, value: real, index: nat)
    requires !(0 <= pad < |row|)
    requires var r := RankingFrom(row, Floor(low)); IsBest(row, low, Indices(r, |r|, rank, pad), |row|, value, index)
    ensures var r := RankingFrom(row, Floor(low));
      if rank < |r| then index == r[rank] && value == row[r[rank]] else index == |row| && value == LOWEST
  {
    var r := RankingFrom(row, Floor(low));
    var taken := Indices(r, |r|, rank, pad);
    RankingInOrder(row, Floor(low));
    if index < |row| {
      TakenSoFar(row, r, rank, pad, index);
      assert index in r;
      var q :| 0 <= q < |r| && r[q] == index;
      assert q >= rank;
    }
    if rank < |r| {
      var next := r[rank];
      assert next in r;
      TakenSoFar(row, r, rank, pad, next);
      assert Open(row, low, taken, next);
    }
  }

  // -------------------------------------------------------------------------
  // Output rows
  // -------------------------------------------------------------------------

  /** Everything outside ranks `0 .. k` of the row at `base` is as it was. */
  ghost predicate OnlyRow<T>(now: seq<T>, was: seq<T>, base: nat, k: nat) {
    |now| == |was| && base + k <= |now| && now[..base] == was[..base] && now[base + k..] == was[base + k..]
  }

  /** Store one rank of the output row. */
  method Emit(values: array<real>, indices: array<int>, base: nat, rank: nat, ghost k: nat, value: real, index: int)
    requires rank < k && base + k <= values.Length && base + k <= indices.Length
    modifies values, indices
    ensures indices[..][base..base + rank + 1] == old(indices[..][base..base + rank]) + [index]
    ensures values[..][base..base + rank + 1] == old(values[..][base..base + rank]) + [value]
    ensures OnlyRow(indices[..], old(indices[..]), base, k) && OnlyRow(values[..], old(values[..]), base, k)
  {
    values[base + rank] := value;
    indices[base + rank] := index;
  }

  lemma OutputNext(row: seq<real>, s: seq<nat>, m: nat, rank: nat, pad: int, padValue: real)
    requires InRange(row, s) && m <= |s|
    ensures Indices(s, m, rank + 1, pad) == Indices(s, m, rank, pad) + [if rank < m then s[rank] else pad]
    ensures Values(row, s, m, rank + 1, padValue) ==
            Values(row, s, m, rank, padValue) + [if rank < m then row[s[rank]] else padValue]
  {
  }

  /** Taking one more token changes nothing at the ranks before it. */
  lemma OutputSame(row: seq<real>, s: seq<nat>, m: nat, n: nat, k: nat, pad: int, padValue: real)
    requires InRange(row, s) && k <= m <= |s| && k <= n <= |s|
    ensures Indices(s, m, k, pad) == Indices(s, n, k, pad) && Values(row, s, m, k, padValue) == Values(row, s, n, k, padValue)
  {
  }

  // -------------------------------------------------------------------------
  // Top-k
  // -------------------------------------------------------------------------

  /** What the kernel writes: the ranking of the tokens that are not below the lowest finite value. */
  function TopKIndices(row: seq<real>, k: nat): seq<int> {
    var r := RankingFrom(row, LOWEST);
    Indices(r, |r|, k, |row|)
  }

  function TopKValues(row: seq<real>, k: nat): seq<real> {
    var r := RankingFrom(row, LOWEST);
    Values(row, r, |r|, k, LOWEST)
  }

  method TopKRow(row: seq<real>, k: nat, values: array<real>, indices: array<int>, base: nat)
    requires base + k <= values.Length && base + k <= indices.Length
    modifies values, indices
    ensures indices[..][base..base + k] == TopKIndices(row, k) && values[..][base..base + k] == TopKValues(row, k)
    ensures OnlyRow(indices[..], old(indices[..]), base, k) && OnlyRow(values[..], old(values[..]), base, k)
  {
    ghost var r := RankingFrom(row, LOWEST);
    for rank := 0 to k
      invariant indices[..][base..base + rank] == Indices(r, |r|, rank, |row|)
      invariant values[..][base..base + rank] == Values(row, r, |r|, rank, LOWEST)
      invariant OnlyRow(indices[..], old(indices[..]), base, k) && OnlyRow(values[..], old(values[..]), base, k)
    {
      var bestValue, bestIndex := PickBest(row, LOWEST, indices, base, rank);
      NextBest(row, LOWEST, rank, |row|, bestValue, bestIndex);
      OutputNext(row, r, |r|, rank, |row|, LOWEST);
      Emit(values, indices, base, rank, k, bestValue, bestIndex);
    }
  }

  /** The kernel and the reference agree exactly when at least `k` tokens are not below the lowest finite value. */
  lemma TopKIff(row: seq<real>, k: nat)
    requires k <= |row|
    ensures TopKIndices(row, k) == Ranking(row)[..k] <==> k <= |RankingFrom(row, LOWEST)|
    ensures k <= |RankingFrom(row, LOWEST)| ==> TopKValues(row, k) == Values(row, Ranking(row), k, k, 0.0)
  {
    var r := RankingFrom(row, LOWEST);
    FilterIsPrefix(row, LOWEST);
    if k > |r| {
      assert TopKIndices(row, k)[|r|] == |row|;
      assert Ranking(row)[..k][|r|] < |row|;
    }
  }

  /** Finite float32 values are never below the lowest one. */
  predicate Finite(row: seq<real>) {
    forall i :: 0 <= i < |row| ==> row[i] >= LOWEST
  }

  lemma FiniteRanking(row: seq<real>)
    requires Finite(row)
    ensures RankingFrom(row, LOWEST) == Ranking(row)
  {
    KeptAll(row, LOWEST, |row|);
  }

  /** On finite rows the kernel's tokens are the first `k` of the reference order, all distinct. */
  lemma TopKOnFinite(row: seq<real>, k: nat)
    requires Finite(row) && k <= |row|
    ensures TopKIndices(row, k) == Ranking(row)[..k] && Distinct(Ranking(row)[..k])
  {
    FiniteRanking(row);
    RankingInOrder(row, LOWEST);
    TopKIff(row, k);
  }

  /** A token below the lowest finite value is never taken: the kernel pads where the reference has it. */
  lemma TopKMissesBelowLowest(x: real)
    requires x < LOWEST
    ensures TopKIndices([x], 1) == [1] && TopKValues([x], 1) == [LOWEST] && Ranking([x])[..1] == [0]
  {
    var r := RankingFrom([x], LOWEST);
    assert forall a :: 0 <= a < |r| ==> r[a] in r;
    TopKIff([x], 1);
    assert Ranking([x])[0] in Ranking([x]);
  }

  /** The lowest finite float32: all mantissa bits set, the largest exponent, negative. */
  lemma LowestFloat()
    ensures LOWEST == -((TwoTo(24) - 1.0) * TwoTo(104))
  {
    TwoToAdds(8, 8);
    TwoToAdds(16, 8);
    TwoToAdds(24, 24);
    TwoToAdds(48, 48);
    TwoToAdds(96, 8);
    assert TwoTo(8) == 256.0;
    assert TwoTo(24) == 16777216.0;
    assert TwoTo(48) == 281474976710656.0;
    assert TwoTo(96) == 79228162514264337593543950336.0;
    assert TwoTo(104) == 20282409603651670423947251286016.0;
  }

  function TwoTo(n: nat): real {
    if n == 0 then 1.0 else 2.0 * TwoTo(n - 1)
  }

  lemma {:induction false} TwoToAdds(m: nat, n: nat)
    ensures TwoTo(m + n) == TwoTo(m) * TwoTo(n)
    decreases m
  {
    if m > 0 {
      TwoToAdds(m - 1, n);
    }
  }

  // -------------------------------------------------------------------------
  // What the selected tokens are
  // -------------------------------------------------------------------------

  /**
   `t` lists distinct tokens by descending value, equal values by ascending index,
   and every other token comes after them in that order.
   */
  ghost predicate TopTokens(row: seq<real>, t: seq<int>) {
    && (forall a :: 0 <= a < |t| ==> 0 <= t[a] < |row|)
    && (forall a, b :: 0 <= a < b < |t| ==> row[t[a]] > row[t[b]] || (row[t[a]] == row[t[b]] && t[a] < t[b]))
    && (forall a, y :: 0 <= a < |t| && 0 <= y < |row| && y !in t ==>
          row[t[a]] > row[y] || (row[t[a]] == row[y] && t[a] < y))
  }

  lemma PrefixIsTop(row: seq<real>, n: nat)
    requires n <= |row|
    ensures TopTokens(row, Ranking(row)[..n])
  {
    RankingInOrder(row, LOWEST);
    var r := Ranking(row);
    var t: seq<int> := r[..n];
    forall a, y | 0 <= a < |t| && 0 <= y < |row| && y !in t
      ensures row[t[a]] > row[y] || (row[t[a]] == row[y] && t[a] < y)
    {
      assert y in r;
      var q :| 0 <= q < |r| && r[q] == y;
      assert Before(row, r[a], r[q]);
    }
    forall a, b | 0 <= a < b < |t| ensures row[t[a]] > row[t[b]] || (row[t[a]] == row[t[b]] && t[a] < t[b]) {
      assert Before(row, r[a], r[b]);
    }
  }

  /** The top-k output of a row of finite floats: the first k tokens with their values. */
  lemma TopKMeaning(row: seq<real>, k: nat)
    requires Finite(row) && k <= |row|
    ensures var t, v := TopKIndices(row, k), TopKValues(row, k);
      |t| == |v| == k && TopTokens(row, t) && forall a :: 0 <= a < k ==> v[a] == row[t[a]]
  {
    TopKOnFinite(row, k);
    FiniteRanking(row);
    PrefixIsTop(row, k);
  }

  ghost predicate RowWritten(values: seq<real>, indices: seq<int>, row: seq<real>, r: nat, k: nat) {
    && r * k + k <= |indices| && indices[r * k..r * k + k] == TopKIndices(row, k)
    && r * k + k <= |values| && values[r * k..r * k + k] == TopKValues(row, k)
  }

  /** The launch over all rows: each program writes its own slice. */
  method TopKGrid(logits: seq<seq<real>>, k: nat, values: array<real>, indices: array<int>)
    requires values.Length == indices.Length == |logits| * k
    modifies values, indices
    ensures forall r :: 0 <= r < |logits| ==> RowWritten(values[..], indices[..], logits[r], r, k)
  {
    for r := 0 to |logits|
      invariant forall i :: 0 <= i < r ==> RowWritten(values[..], indices[..], logits[i], i, k)
    {
      SlotFits(r, |logits|, k);
      ghost var oldValues, oldIndices := values[..], indices[..];
      TopKRow(logits[r], k, values, indices, r * k);
      forall i | 0 <= i < r ensures RowWritten(values[..], indices[..], logits[i], i, k) {
        RowKept(values[..], indices[..], oldValues, oldIndices, logits[i], i, r, k);
      }
    }
  }

  lemma RowKept(
    values: seq<real>, indices: seq<int>, oldValues: seq<real>, oldIndices: seq<int>, row: seq<real>, i: nat, r: nat, k: nat)
    requires RowWritten(oldValues, oldIndices, row, i, k) && i < r
    requires OnlyRow(values, oldValues, r * k, k) && OnlyRow(indices, oldIndices, r * k, k)
    ensures RowWritten(values, indices, row, i, k)
  {
    SlotFits(i, r, k);
    SliceKept(indices, oldIndices, i * k, i * k + k, r * k, k);
    SliceKept(values, oldValues, i * k, i * k + k, r * k, k);
  }

  lemma SliceKept<T>(now: seq<T>, was: seq<T>, from: nat, to: nat, base: nat, k: nat)
    requires OnlyRow(now, was, base, k) && from <= to <= base
    ensures now[from..to] == was[from..to]
  {
    assert now[..base][from..to] == now[from..to];
    assert was[..base][from..to] == was[from..to];
  }

  // -------------------------------------------------------------------------
  // Top-p
  // -------------------------------------------------------------------------

  function Mass(row: seq<real>, s: seq<nat>): real
    requires InRange(row, s)
  {
    if s == [] then 0.0 else Mass(row, s[..|s| - 1]) + row[s[|s| - 1]]
  }

  /** The shortest prefix of the ranking with mass at least `p`, capped at `maxK`, has length `m`. */
  ghost predicate IsCut(row: seq<real>, p: real, maxK: nat, m: nat) {
    && m <= maxK && m <= |row|
    && (forall j :: 0 <= j < m ==> Mass(row, Ranking(row)[..j]) < p)
    && (m == maxK || m == |row| || Mass(row, Ranking(row)[..m]) >= p)
  }

  lemma CutIsUnique(row: seq<real>, p: real, maxK: nat, m: nat, n: nat)
    requires IsCut(row, p, maxK, m) && IsCut(row, p, maxK, n)
    ensures m == n
  {
  }

  lemma MassNext(row: seq<real>, s: seq<nat>, j: nat)
    requires InRange(row, s) && j < |s|
    ensures Mass(row, s[..j + 1]) == Mass(row, s[..j]) + row[s[j]]
  {
    assert s[..j + 1][..j] == s[..j];
  }

  /** On a finite row the masked maximum after `rank` picks is the token of that rank. */
  lemma NextToken(row: seq<real>, rank: nat, value: real, index: nat)
    requires Finite(row) && rank < |row|
    requires IsBest(row, LOWEST, Indices(Ranking(row), rank, rank, -1), |row|, value, index)
    ensures var r := Ranking(row);
      && index == r[rank] && value == row[index]
      && Indices(r, rank + 1, rank + 1, -1) == Indices(r, rank, rank, -1) + [index as int]
      && Values(row, r, rank + 1, rank + 1, 0.0) == Values(row, r, rank, rank, 0.0) + [value]
  {
    var r := Ranking(row);
    FiniteRanking(row);
    OutputSame(row, r, rank, |r|, rank, -1, 0.0);
    OutputSame(row, r, rank, rank + 1, rank, -1, 0.0);
    NextBest(row, LOWEST, rank, -1, value, index);
    OutputNext(row, r, rank + 1, rank, -1, 0.0);
  }

  /** The top-p kernel: masked maximum until the mass reaches `p`, then padding. */
  method TopPRow(row: seq<real>, p: real, maxK: nat, values: array<real>, indices: array<int>, base: nat)
    returns (count: nat, cumulative: real)
    requires Finite(row) && maxK <= |row| && p > 0.0
    requires base + maxK <= values.Length && base + maxK <= indices.Length
    modifies values, indices
    ensures IsCut(row, p, maxK, count) && cumulative == Mass(row, Ranking(row)[..count])
    ensures indices[..][base..base + maxK] == Indices(Ranking(row), count, maxK, -1)
    ensures values[..][base..base + maxK] == Values(row, Ranking(row), count, maxK, 0.0)
    ensures OnlyRow(indices[..], old(indices[..]), base, maxK) && OnlyRow(values[..], old(values[..]), base, maxK)
  {
    ghost var r := Ranking(row);
    cumulative, count := 0.0, 0;
    var done := false;
    for rank := 0 to maxK
      invariant count <= rank && (!done ==> count == rank)
      invariant Reached(row, p, count, cumulative, done)
      invariant indices[..][base..base + rank] == Indices(r, count, rank, -1)
      invariant values[..][base..base + rank] == Values(row, r, count, rank, 0.0)
      invariant OnlyRow(indices[..], old(indices[..]), base, maxK)
      invariant OnlyRow(values[..], old(values[..]), base, maxK)
    {
      if done {
        OutputNext(row, r, count, rank, -1, 0.0);
        Emit(values, indices, base, rank, maxK, 0.0, -1);
      } else {
        var bestValue, bestIndex := PickBest(row, LOWEST, indices, base, rank);
        NextToken(row, rank, bestValue, bestIndex);
        ReachNext(row, p, count, cumulative);
        cumulative := cumulative + bestValue;
        count := count + 1;
        Emit(values, indices, base, rank, maxK, bestValue, bestIndex);
        done := cumulative >= p;
      }
    }
  }

  /** The first `count` tokens have been added up, and no shorter prefix reaches `p`. */
  ghost predicate Reached(row: seq<real>, p: real, count: nat, cumulative: real, done: bool) {
    && count <= |row| && cumulative == Mass(row, Ranking(row)[..count])
    && (forall j :: 0 <= j < count ==> Mass(row, Ranking(row)[..j]) < p)
    && (done <==> cumulative >= p)
  }

  lemma ReachNext(row: seq<real>, p: real, count: nat, cumulative: real)
    requires Reached(row, p, count, cumulative, false) && count < |row|
    ensures var next := cumulative + row[Ranking(row)[count]]; Reached(row, p, count + 1, next, next >= p)
  {
    MassNext(row, Ranking(row), count);
  }

  /** The host's top-p reference: add up the ranking until `p` is reached or `maxK` tokens are taken, then pad. */
  method TopPReference(row: seq<real>, p: real, maxK: nat)
    returns (values: seq<real>, indices: seq<int>, count: nat, cumulative: real)
    requires p > 0.0
    ensures IsCut(row, p, maxK, count) && cumulative == Mass(row, Ranking(row)[..count])
    ensures indices == Indices(Ranking(row), count, maxK, -1)
    ensures values == Values(row, Ranking(row), count, maxK, 0.0)
  {
    var ordered := Ranking(row);
    values, indices, cumulative := [], [], 0.0;
    var next := 0;
    while next < |ordered|
      invariant next <= maxK && Reached(row, p, next, cumulative, false)
      invariant indices == Indices(ordered, next, next, -1) && values == Values(row, ordered, next, next, 0.0)
    {
      if |values| >= maxK {
        break;
      }
      OutputSame(row, ordered, next, next + 1, next, -1, 0.0);
      OutputNext(row, ordered, next + 1, next, -1, 0.0);
      ReachNext(row, p, next, cumulative);
      values := values + [row[ordered[next]]];
      indices := indices + [ordered[next]];
      cumulative := cumulative + row[ordered[next]];
      next := next + 1;
      if cumulative >= p {
        break;
      }
    }
    count := |indices|;
    while |values| < maxK
      invariant |values| == |indices| && count <= |values| <= maxK
      invariant indices == Indices(ordered, count, |indices|, -1)
      invariant values == Values(row, ordered, count, |values|, 0.0)
    {
      OutputNext(row, ordered, count, |values|, -1, 0.0);
      values := values + [0.0];
      indices := indices + [-1];
    }
  }

  function Sum(values: seq<real>): real {
    if values == [] then 0.0 else Sum(values[..|values| - 1]) + values[|values| - 1]
  }

  lemma {:induction false} MassIsSum(row: seq<real>, s: seq<nat>, n: nat, maxK: nat)
    requires InRange(row, s) && n <= |s| && n <= maxK
    ensures Mass(row, s[..n]) == Sum(Values(row, s, n, maxK, 0.0)[..n])
    decreases n
  {
    if n > 0 {
      MassIsSum(row, s, n - 1, maxK);
      MassNext(row, s, n - 1);
      var v, w := Values(row, s, n, maxK, 0.0)[..n], Values(row, s, n - 1, maxK, 0.0)[..n - 1];
      assert v[..n - 1] == w && v[n - 1] == row[s[n - 1]];
    }
  }

  /**
   The top-p output of a row: the first `count` tokens with their values, then
   padding; their values add up to the mass; the mass reaches `p` unless the cap or
   the row ends first; and no shorter list of first tokens reaches it.
   */
  lemma TopPMeaning(row: seq<real>, p: real, maxK: nat, values: seq<real>, indices: seq<int>, count: nat, mass: real)
    requires IsTopP(row, p, maxK, values, indices, count, mass)
    ensures |values| == |indices| == maxK && count <= maxK && count <= |row| && TopTokens(row, indices[..count])
    ensures forall a :: 0 <= a < count ==> values[a] == row[indices[a]]
    ensures forall a :: count <= a < maxK ==> indices[a] == -1 && values[a] == 0.0
    ensures mass == Sum(values[..count]) && (mass >= p || count == maxK || count == |row|)
    ensures forall n :: 0 <= n < count ==> Sum(values[..n]) < p
  {
    var r := Ranking(row);
    PrefixIsTop(row, count);
    assert indices[..count] == r[..count];
    MassIsSum(row, r, count, maxK);
    forall n | 0 <= n < count ensures Sum(values[..n]) < p {
      MassIsSum(row, r, n, maxK);
      assert Values(row, r, n, maxK, 0.0)[..n] == values[..n];
      assert Mass(row, r[..n]) < p;
    }
  }

  /** Kernel and reference side by side: they agree in every output. */
  method CompareTopP(row: seq<real>, p: real, maxK: nat, values: array<real>, indices: array<int>, base: nat)
    returns (count: nat, cumulative: real, refValues: seq<real>, refIndices: seq<int>, refCount: nat, refCumulative: real)
    requires Finite(row) && maxK <= |row| && p > 0.0
    requires base + maxK <= values.Length && base + maxK <= indices.Length
    modifies values, indices
    ensures count == refCount && cumulative == refCumulative
    ensures values[..][base..base + maxK] == refValues && indices[..][base..base + maxK] == refIndices
  {
    count, cumulative := TopPRow(row, p, maxK, values, indices, base);
    refValues, refIndices, refCount, refCumulative := TopPReference(row, p, maxK);
    CutIsUnique(row, p, maxK, count, refCount);
  }

  /** The top-p output of a row: the tokens of the cut, padded, with their number and mass. */
  ghost predicate IsTopP(row: seq<real>, p: real, maxK: nat, values: seq<real>, indices: seq<int>, count: nat, mass: real) {
    && IsCut(row, p, maxK, count) && mass == Mass(row, Ranking(row)[..count])
    && indices == Indices(Ranking(row), count, maxK, -1) && values == Values(row, Ranking(row), count, maxK, 0.0)
  }

  /** Row `r` of the output tensors is the top-p output of `row`. */
  ghost predicate TopPWritten(
    values: seq<real>, indices: seq<int>, counts: seq<nat>, masses: seq<real>, row: seq<real>, r: nat, p: real, maxK: nat)
  {
    && r < |counts| && r < |masses| && r * maxK + maxK <= |values| && r * maxK + maxK <= |indices|
    && IsTopP(row, p, maxK, values[r * maxK..r * maxK + maxK], indices[r * maxK..r * maxK + maxK], counts[r], masses[r])
  }

  lemma TopPKept(
    values: seq<real>, indices: seq<int>, counts: seq<nat>, masses: seq<real>,
    values': seq<real>, indices': seq<int>, counts': seq<nat>, masses': seq<real>, row: seq<real>, i: nat, r: nat, p: real, maxK: nat)
    requires TopPWritten(values, indices, counts, masses, row, i, p, maxK) && i < r
    requires OnlyRow(values', values, r * maxK, maxK) && OnlyRow(indices', indices, r * maxK, maxK)
    requires i < |counts'| && counts'[i] == counts[i] && i < |masses'| && masses'[i] == masses[i]
    ensures TopPWritten(values', indices', counts', masses', row, i, p, maxK)
  {
    SlotFits(i, r, maxK);
    SliceKept(indices', indices, i * maxK, i * maxK + maxK, r * maxK, maxK);
    SliceKept(values', values, i * maxK, i * maxK + maxK, r * maxK, maxK);
  }

  /** The top-p launch over all rows: each program writes its own row of the four outputs. */
  method TopPGrid(
    rows: seq<seq<real>>, p: real, maxK: nat, values: array<real>, indices: array<int>, counts: array<nat>, masses: array<real>)
    requires p > 0.0 && forall r :: 0 <= r < |rows| ==> Finite(rows[r]) && maxK <= |rows[r]|
    requires values.Length == indices.Length == |rows| * maxK && counts.Length == masses.Length == |rows| && values != masses
    modifies values, indices, counts, masses
    ensures forall r :: 0 <= r < |rows| ==>
      TopPWritten(values[..], indices[..], counts[..], masses[..], rows[r], r, p, maxK)
  {
    for r := 0 to |rows|
      invariant forall i :: 0 <= i < r ==>
        TopPWritten(values[..], indices[..], counts[..], masses[..], rows[i], i, p, maxK)
    {
      SlotFits(r, |rows|, maxK);
      ghost var oldValues, oldIndices, oldCounts, oldMasses := values[..], indices[..], counts[..], masses[..];
      var count, mass := TopPRow(rows[r], p, maxK, values, indices, r * maxK);
      counts[r] := count;
      masses[r] := mass;
      forall i | 0 <= i < r ensures TopPWritten(values[..], indices[..], counts[..], masses[..], rows[i], i, p, maxK) {
        TopPKept(oldValues, oldIndices, oldCounts, oldMasses,
          values[..], indices[..], counts[..], masses[..], rows[i], i, r, p, maxK);
      }
    }
  }

  // -------------------------------------------------------------------------
  // Top-p is optimal
  // -------------------------------------------------------------------------

  lemma {:induction false} MassWithout(row: seq<real>, t: seq<nat>, a: nat)
    requires InRange(row, t) && a < |t|
    ensures InRange(row, t[..a] + t[a + 1..]) && Mass(row, t) == Mass(row, t[..a] + t[a + 1..]) + row[t[a]]
    decreases |t|
  {
    var n := |t| - 1;
    var rest := t[..a] + t[a + 1..];
    if a == n {
      assert rest == t[..n];
    } else {
      MassWithout(row, t[..n], a);
      assert rest[..|rest| - 1] == t[..n][..a] + t[..n][a + 1..];
      assert rest[|rest| - 1] == t[n];
    }
  }

  /** Of more than `j` distinct tokens, one is not among `j` given ones. */
  lemma SomeoneElse(t: seq<nat>, first: seq<nat>) returns (a: nat)
    requires Distinct(t) && Distinct(first) && |t| > |first|
    ensures a < |t| && t[a] !in first
  {
    if forall b :: 0 <= b < |t| ==> t[b] in first {
      DistinctSize(t);
      DistinctSize(first);
      SubsetSize(Members(t), Members(first));
      assert false;
    }
    a :| 0 <= a < |t| && t[a] !in first;
  }

  /** A token that is not among the first `j` of the ranking is not larger than the next one. */
  lemma LaterIsSmaller(row: seq<real>, j: nat, y: nat)
    requires j < |row| && y < |row| && y !in Ranking(row)[..j]
    ensures row[y] <= row[Ranking(row)[j]]
  {
    RankingInOrder(row, LOWEST);
    var r := Ranking(row);
    assert y in r;
    var q :| 0 <= q < |r| && r[q] == y;
    assert q >= j;
  }

  lemma FirstRanksDiffer(row: seq<real>, j: nat)
    requires j <= |row|
    ensures Distinct(Ranking(row)[..j])
  {
    RankingInOrder(row, LOWEST);
  }

  lemma WithoutOne(row: seq<real>, t: seq<nat>, a: nat)
    requires InRange(row, t) && Distinct(t) && a < |t|
    ensures var rest := t[..a] + t[a + 1..]; InRange(row, rest) && Distinct(rest) && |rest| == |t| - 1
  {
    var rest := t[..a] + t[a + 1..];
    forall i, k | 0 <= i < k < |rest| ensures rest[i] != rest[k] {
      var i', k' := if i < a then i else i + 1, if k < a then k else k + 1;
      assert rest[i] == t[i'] && rest[k] == t[k'];
    }
  }

  /** Taking out one token that is not ranked first costs at most the weight of the next ranked one. */
  lemma Exchange(row: seq<real>, t: seq<nat>) returns (rest: seq<nat>)
    requires InRange(row, t) && Distinct(t) && 0 < |t| <= |row|
    ensures InRange(row, rest) && Distinct(rest) && |rest| == |t| - 1
    ensures Mass(row, t) <= Mass(row, rest) + row[Ranking(row)[|t| - 1]]
  {
    var j := |t| - 1;
    FirstRanksDiffer(row, j);
    var a := SomeoneElse(t, Ranking(row)[..j]);
    LaterIsSmaller(row, j, t[a]);
    MassWithout(row, t, a);
    WithoutOne(row, t, a);
    rest := t[..a] + t[a + 1..];
  }

  /** No `|t|` distinct tokens weigh more than the first `|t|` of the ranking. */
  lemma {:induction false} RankingIsHeaviest(row: seq<real>, t: seq<nat>)
    requires InRange(row, t) && Distinct(t) && |t| <= |row|
    ensures Mass(row, t) <= Mass(row, Ranking(row)[..|t|])
    decreases |t|
  {
    if t != [] {
      var rest := Exchange(row, t);
      RankingIsHeaviest(row, rest);
      MassNext(row, Ranking(row), |t| - 1);
    }
  }

  /** When the kernel's mass reaches `p`, no smaller set of tokens does. */
  lemma CutIsOptimal(row: seq<real>, p: real, maxK: nat, m: nat, t: seq<nat>)
    requires IsCut(row, p, maxK, m) && InRange(row, t) && Distinct(t) && |t| < m
    ensures Mass(row, t) < p
  {
    RankingIsHeaviest(row, t);
  }

  // -------------------------------------------------------------------------
  // Min-p
  // -------------------------------------------------------------------------

  ghost predicate IsMax(row: seq<real>, n: nat, m: real) {
    && n <= |row|
    && (forall i :: 0 <= i < n ==> row[i] <= m)
    && (n == 0 ==> m == LOWEST) && (n > 0 ==> exists i :: 0 <= i < n && row[i] == m)
  }

  /** The row maximum as the kernel finds it. */
  method RowMax(row: seq<real>) returns (m: real)
    requires Finite(row)
    ensures IsMax(row, |row|, m)
  {
    m := LOWEST;
    for col := 0 to |row|
      invariant IsMax(row, col, m)
    {
      if row[col] > m {
        m := row[col];
      } else if col == 0 {
        assert row[0] == m;
      }
    }
  }

  /** The first `maxK` tokens at or above the threshold in reference order, padded, and how many they are. */
  ghost predicate IsSelection(
    row: seq<real>, threshold: real, maxK: nat, values: seq<real>, indices: seq<int>, count: nat)
  {
    var r := RankingFrom(row, threshold);
    && count == (if |r| <= maxK then |r| else maxK)
    && indices == Indices(r, |r|, maxK, -1) && values == Values(row, r, |r|, maxK, 0.0)
  }

  /** Masked maximum over the tokens at or above the threshold, then padding. */
  method SelectFrom(row: seq<real>, threshold: real, maxK: nat, values: array<real>, indices: array<int>, base: nat)
    returns (count: nat)
    requires Finite(row) && base + maxK <= values.Length && base + maxK <= indices.Length
    modifies values, indices
    ensures IsSelection(row, threshold, maxK, values[..][base..base + maxK], indices[..][base..base + maxK], count)
    ensures OnlyRow(indices[..], old(indices[..]), base, maxK) && OnlyRow(values[..], old(values[..]), base, maxK)
  {
    ghost var r := RankingFrom(row, threshold);
    count := 0;
    var done := false;
    for rank := 0 to maxK
      invariant count == (if |r| <= rank then |r| else rank) && (done ==> |r| <= rank)
      invariant indices[..][base..base + rank] == Indices(r, |r|, rank, -1)
      invariant values[..][base..base + rank] == Values(row, r, |r|, rank, 0.0)
      invariant OnlyRow(indices[..], old(indices[..]), base, maxK)
      invariant OnlyRow(values[..], old(values[..]), base, maxK)
    {
      if done {
        OutputNext(row, r, |r|, rank, -1, 0.0);
        Emit(values, indices, base, rank, maxK, 0.0, -1);
      } else {
        var bestValue, bestIndex := PickBest(row, threshold, indices, base, rank);
        NextAbove(row, threshold, rank, bestValue, bestIndex);
        if bestIndex == |row| {
          Emit(values, indices, base, rank, maxK, 0.0, -1);
          done := true;
        } else {
          count := count + 1;
          Emit(values, indices, base, rank, maxK, bestValue, bestIndex);
        }
      }
    }
  }

  lemma NextAbove(row: seq<real>, low: real, rank: nat, value: real, index: nat)
    requires Finite(row)
    requires var r := RankingFrom(row, low); IsBest(row, low, Indices(r, |r|, rank, -1), |row|, value, index)
    ensures var r := RankingFrom(row, low);
      && (index == |row| <==> |r| <= rank)
      && Indices(r, |r|, rank + 1, -1) == Indices(r, |r|, rank, -1) + [if index == |row| then -1 else index as int]
      && Values(row, r, |r|, rank + 1, 0.0) == Values(row, r, |r|, rank, 0.0) + [if index == |row| then 0.0 else value]
  {
    var r := RankingFrom(row, low);
    FloorSame(row, low);
    NextBest(row, low, rank, -1, value, index);
    OutputNext(row, r, |r|, rank, -1, 0.0);
  }

  /** The min-p kernel. */
  method MinPRow(row: seq<real>, minP: real, maxK: nat, values: array<real>, indices: array<int>, base: nat)
    returns (count: nat, rowMax: real)
    requires Finite(row) && base + maxK <= values.Length && base + maxK <= indices.Length
    modifies values, indices
    ensures IsMax(row, |row|, rowMax)
    ensures IsSelection(row, minP * rowMax, maxK, values[..][base..base + maxK], indices[..][base..base + maxK], count)
    ensures OnlyRow(indices[..], old(indices[..]), base, maxK) && OnlyRow(values[..], old(values[..]), base, maxK)
  {
    rowMax := RowMax(row);
    var threshold := minP * rowMax;
    count := SelectFrom(row, threshold, maxK, values, indices, base);
  }

  lemma FloorSame(row: seq<real>, low: real)
    requires Finite(row)
    ensures RankingFrom(row, Floor(low)) == RankingFrom(row, low)
  {
    KeptSame(row, Floor(low), low, |row|);
  }

  /** The value of token `y` is at least `minP` times every value of the row. */
  ghost predicate Passes(row: seq<real>, minP: real, y: int) {
    0 <= y < |row| && forall z :: 0 <= z < |row| ==> row[y] >= minP * row[z]
  }

  /**
   The min-p output of a row: tokens in reference order, then padding.  A token is
   taken only if its value is at least `minP` times every value of the row, and
   unless the cap is reached every such token is taken.
   */
  lemma MinPMeaning(row: seq<real>, minP: real, maxK: nat, m: real, low: real, values: seq<real>, indices: seq<int>, count: nat)
    requires minP >= 0.0 && IsMax(row, |row|, m) && low == minP * m && IsSelection(row, low, maxK, values, indices, count)
    ensures |values| == |indices| == maxK && count <= maxK && TopTokens(row, indices[..count])
    ensures forall a :: 0 <= a < count ==> values[a] == row[indices[a]]
    ensures forall a :: count <= a < maxK ==> indices[a] == -1 && values[a] == 0.0
    ensures forall a :: 0 <= a < count ==> Passes(row, minP, indices[a])
    ensures count < maxK ==> forall y :: 0 <= y < |row| && Passes(row, minP, y) ==> y in indices[..count]
  {
    SelectionMeaning(row, low, maxK, values, indices, count);
    forall y | 0 <= y < |row| ensures row[y] >= low <==> Passes(row, minP, y) {
      PassesIff(row, minP, m, y);
    }
  }

  lemma SelectsAll(row: seq<real>, low: real, maxK: nat, values: seq<real>, indices: seq<int>, count: nat, y: nat)
    requires IsSelection(row, low, maxK, values, indices, count) && count < maxK && y < |row| && row[y] >= low
    ensures count <= |indices| && y in indices[..count]
  {
    var r := RankingFrom(row, low);
    assert y in r;
    var q :| 0 <= q < |r| && r[q] == y;
    assert indices[..count][q] == y;
  }

  lemma SelectsFirst(row: seq<real>, low: real, maxK: nat, values: seq<real>, indices: seq<int>, count: nat)
    requires IsSelection(row, low, maxK, values, indices, count)
    ensures count <= |indices| && TopTokens(row, indices[..count])
  {
    FilterIsPrefix(row, low);
    PrefixIsTop(row, count);
    assert indices[..count] == Ranking(row)[..count];
  }

  lemma SelectsAbove(row: seq<real>, low: real, maxK: nat, values: seq<real>, indices: seq<int>, count: nat, a: nat)
    requires IsSelection(row, low, maxK, values, indices, count) && a < count
    ensures a < |indices| && a < |values| && 0 <= indices[a] < |row| && values[a] == row[indices[a]] >= low
  {
    assert RankingFrom(row, low)[a] in RankingFrom(row, low);
  }

  lemma SelectionMeaning(row: seq<real>, low: real, maxK: nat, values: seq<real>, indices: seq<int>, count: nat)
    requires IsSelection(row, low, maxK, values, indices, count)
    ensures |values| == |indices| == maxK && count <= maxK && TopTokens(row, indices[..count])
    ensures forall a :: 0 <= a < count ==> values[a] == row[indices[a]] && row[indices[a]] >= low
    ensures forall a :: count <= a < maxK ==> indices[a] == -1 && values[a] == 0.0
    ensures count < maxK ==> forall y :: 0 <= y < |row| && row[y] >= low ==> y in indices[..count]
  {
    SelectsFirst(row, low, maxK, values, indices, count);
    forall a | 0 <= a < count ensures 0 <= indices[a] < |row| && values[a] == row[indices[a]] >= low {
      SelectsAbove(row, low, maxK, values, indices, count, a);
    }
    if count < maxK {
      forall y | 0 <= y < |row| && row[y] >= low ensures y in indices[..count] {
        SelectsAll(row, low, maxK, values, indices, count, y);
      }
    }
  }

  lemma PassesIff(row: seq<real>, minP: real, m: real, y: nat)
    requires minP >= 0.0 && IsMax(row, |row|, m) && y < |row|
    ensures row[y] >= minP * m <==> Passes(row, minP, y)
  {
    forall z | 0 <= z < |row| ensures minP * row[z] <= minP * m {
      Scaled(minP, row[z], m);
    }
    var top :| 0 <= top < |row| && row[top] == m;
    assert minP * row[top] == minP * m;
  }

  lemma Scaled(f: real, x: real, y: real)
    requires f >= 0.0 && x <= y
    ensures f * x <= f * y
  {
  }

  lemma MaxIsUnique(row: seq<real>, m: real, m': real)
    requires IsMax(row, |row|, m) && IsMax(row, |row|, m')
    ensures m == m'
  {
  }

  lemma SelectionIsUnique(
    row: seq<real>, threshold: real, maxK: nat, values: seq<real>, indices: seq<int>, count: nat,
    values': seq<real>, indices': seq<int>, count': nat)
    requires IsSelection(row, threshold, maxK, values, indices, count)
    requires IsSelection(row, threshold, maxK, values', indices', count')
    ensures values == values' && indices == indices' && count == count'
  {
  }

  lemma SameThreshold(row: seq<real>, minP: real, m: real, low: real, m': real, low': real)
    requires IsMax(row, |row|, m) && low == minP * m && IsMax(row, |row|, m') && low' == minP * m'
    ensures low == low'
  {
    MaxIsUnique(row, m, m');
  }

  /** The row and the threshold factor determine the output. */
  lemma MinPIsUnique(
    row: seq<real>, minP: real, maxK: nat, m: real, low: real, values: seq<real>, indices: seq<int>, count: nat,
    m': real, low': real, values': seq<real>, indices': seq<int>, count': nat)
    requires IsMax(row, |row|, m) && low == minP * m && IsSelection(row, low, maxK, values, indices, count)
    requires IsMax(row, |row|, m') && low' == minP * m' && IsSelection(row, low', maxK, values', indices', count')
    ensures values == values' && indices == indices' && count == count'
  {
    SameThreshold(row, minP, m, low, m', low');
    SelectionIsUnique(row, low, maxK, values, indices, count, values', indices', count');
  }

  /** The maximum of a row that is not empty, as the host finds it. */
  method Highest(row: seq<real>) returns (m: real)
    requires row != []
    ensures IsMax(row, |row|, m)
  {
    m := row[0];
    for col := 1 to |row|
      invariant IsMax(row, col, m)
    {
      if row[col] > m {
        m := row[col];
      }
    }
  }

  /** Filter by the threshold, sort, cut and pad. */
  method ReferenceFrom(row: seq<real>, threshold: real, maxK: nat)
    returns (values: seq<real>, indices: seq<int>, count: nat)
    ensures IsSelection(row, threshold, maxK, values, indices, count)
  {
    var ordered := RankingFrom(row, threshold);
    count := if |ordered| <= maxK then |ordered| else maxK;
    indices := Indices(ordered, count, count, -1);
    values := Values(row, ordered, count, count, 0.0);
    OutputSame(row, ordered, count, |ordered|, count, -1, 0.0);
    while |values| < maxK
      invariant |values| == |indices| && count <= |values| <= maxK
      invariant indices == Indices(ordered, |ordered|, |indices|, -1)
      invariant values == Values(row, ordered, |ordered|, |values|, 0.0)
    {
      OutputNext(row, ordered, |ordered|, |values|, -1, 0.0);
      values := values + [0.0];
      indices := indices + [-1];
    }
  }

  /** The host's min-p reference. */
  method MinPReference(row: seq<real>, minP: real, maxK: nat)
    returns (values: seq<real>, indices: seq<int>, count: nat, rowMax: real)
    requires row != []
    ensures IsMax(row, |row|, rowMax) && IsSelection(row, minP * rowMax, maxK, values, indices, count)
  {
    rowMax := Highest(row);
    var threshold := minP * rowMax;
    values, indices, count := ReferenceFrom(row, threshold, maxK);
  }

  /** Kernel and reference side by side: they agree in every output. */
  method CompareMinP(row: seq<real>, minP: real, maxK: nat, values: array<real>, indices: array<int>, base: nat)
    returns (count: nat, refValues: seq<real>, refIndices: seq<int>, refCount: nat)
    requires Finite(row) && row != [] && base + maxK <= values.Length && base + maxK <= indices.Length
    modifies values, indices
    ensures count == refCount
    ensures values[..][base..base + maxK] == refValues && indices[..][base..base + maxK] == refIndices
  {
    var rowMax, highest;
    count, rowMax := MinPRow(row, minP, maxK, values, indices, base);
    refValues, refIndices, refCount, highest := MinPReference(row, minP, maxK);
    MinPIsUnique(row, minP, maxK,
      rowMax, minP * rowMax, values[..][base..base + maxK], indices[..][base..base + maxK], count,
      highest, minP * highest, refValues, refIndices, refCount);
  }

  /** The min-p output of a row. */
  ghost predicate IsMinP(row: seq<real>, minP: real, maxK: nat, values: seq<real>, indices: seq<int>, count: nat) {
    exists m :: IsMax(row, |row|, m) && IsSelection(row, minP * m, maxK, values, indices, count)
  }

  lemma WrittenNow(
    values: seq<real>, indices: seq<int>, counts: seq<nat>, row: seq<real>, r: nat, minP: real, m: real, maxK: nat)
    requires r < |counts| && r * maxK + maxK <= |values| && r * maxK + maxK <= |indices| && IsMax(row, |row|, m)
    requires IsSelection(row, minP * m, maxK,
      values[r * maxK..r * maxK + maxK], indices[r * maxK..r * maxK + maxK], counts[r])
    ensures MinPWritten(values, indices, counts, row, r, minP, maxK)
  {
  }

  ghost predicate MinPWritten(
    values: seq<real>, indices: seq<int>, counts: seq<nat>, row: seq<real>, r: nat, minP: real, maxK: nat)
  {
    && r < |counts| && r * maxK + maxK <= |values| && r * maxK + maxK <= |indices|
    && IsMinP(row, minP, maxK, values[r * maxK..r * maxK + maxK], indices[r * maxK..r * maxK + maxK], counts[r])
  }

  lemma MinPKept(
    values: seq<real>, indices: seq<int>, counts: seq<nat>, values': seq<real>, indices': seq<int>, counts': seq<nat>,
    row: seq<real>, i: nat, r: nat, minP: real, maxK: nat)
    requires MinPWritten(values, indices, counts, row, i, minP, maxK) && i < r
    requires OnlyRow(values', values, r * maxK, maxK) && OnlyRow(indices', indices, r * maxK, maxK)
    requires i < |counts'| && counts'[i] == counts[i]
    ensures MinPWritten(values', indices', counts', row, i, minP, maxK)
  {
    SlotFits(i, r, maxK);
    SliceKept(indices', indices, i * maxK, i * maxK + maxK, r * maxK, maxK);
    SliceKept(values', values, i * maxK, i * maxK + maxK, r * maxK, maxK);
  }

  /** One program of the min-p launch. */
  method MinPProgram(
    row: seq<real>, r: nat, minP: real, maxK: nat, values: array<real>, indices: array<int>, counts: array<nat>)
    requires Finite(row) && r < counts.Length && r * maxK + maxK <= values.Length && r * maxK + maxK <= indices.Length
    modifies values, indices, counts
    ensures MinPWritten(values[..], indices[..], counts[..], row, r, minP, maxK)
    ensures OnlyRow(values[..], old(values[..]), r * maxK, maxK) && OnlyRow(indices[..], old(indices[..]), r * maxK, maxK)
    ensures forall i :: 0 <= i < counts.Length && i != r ==> counts[i] == old(counts[i])
  {
    var count, rowMax := MinPRow(row, minP, maxK, values, indices, r * maxK);
    counts[r] := count;
    WrittenNow(values[..], indices[..], counts[..], row, r, minP, rowMax, maxK);
  }

  /** The min-p launch over all rows: each program writes its own row of the three outputs. */
  method MinPGrid(
    rows: seq<seq<real>>, minP: real, maxK: nat, values: array<real>, indices: array<int>, counts: array<nat>)
    requires forall r :: 0 <= r < |rows| ==> Finite(rows[r])
    requires values.Length == indices.Length == |rows| * maxK && counts.Length == |rows|
    modifies values, indices, counts
    ensures forall r :: 0 <= r < |rows| ==> MinPWritten(values[..], indices[..], counts[..], rows[r], r, minP, maxK)
  {
    for r := 0 to |rows|
      invariant forall i :: 0 <= i < r ==> MinPWritten(values[..], indices[..], counts[..], rows[i], i, minP, maxK)
    {
      SlotFits(r, |rows|, maxK);
      ghost var oldValues, oldIndices, oldCounts := values[..], indices[..], counts[..];
      MinPProgram(rows[r], r, minP, maxK, values, indices, counts);
      forall i | 0 <= i < r ensures MinPWritten(values[..], indices[..], counts[..], rows[i], i, minP, maxK) {
        MinPKept(oldValues, oldIndices, oldCounts, values[..], indices[..], counts[..], rows[i], i, r, minP, maxK);
      }
    }
  }

  /** The tokens that pass the threshold are a prefix of the full ranking. */
  lemma MinPIsPrefix(row: seq<real>, minP: real, rowMax: real)
    ensures var r := RankingFrom(row, minP * rowMax); |r| <= |row| && r == Ranking(row)[..|r|]
  {
    FilterIsPrefix(row, minP * rowMax);
  }
}
