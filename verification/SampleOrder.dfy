/**
 The order in which sampling kernels and their references take tokens: higher
 values first, equal values by lower index.
 */
module SampleOrder {
  import opened Arithmetic

  /** The lowest finite float32. */
  const LOWEST: real := -340282346638528859811704183484516925440.0

  predicate Before(row: seq<real>, i: nat, j: nat)
    requires i < |row| && j < |row|
  {
    row[i] > row[j] || (row[i] == row[j] && i < j)
  }

  /** The indices below `n` whose value is at least `low`, as the reference filters them. */
  function Kept(row: seq<real>, low: real, n: nat): (r: seq<nat>)
    requires n <= |row|
    ensures forall i: nat :: i in r <==> i < n && row[i] >= low
  {
    if n == 0 then []
    else Kept(row, low, n - 1) + if row[n - 1] >= low then [n - 1] else []
  }

  function All(n: nat): (r: seq<nat>)
    ensures |r| == n && forall i: nat :: i in r <==> i < n
  {
    if n == 0 then [] else All(n - 1) + [n - 1]
  }

  ghost predicate InRange(row: seq<real>, s: seq<nat>) {
    forall a :: 0 <= a < |s| ==> s[a] < |row|
  }

  ghost predicate InOrder(row: seq<real>, s: seq<nat>) {
    InRange(row, s) && forall a, b :: 0 <= a < b < |s| ==> Before(row, s[a], s[b])
  }

  /** Insert `x` after all elements that come before it. */
  function Insert(row: seq<real>, s: seq<nat>, x: nat): (r: seq<nat>)
    requires x < |row| && InRange(row, s)
    ensures InRange(row, r) && |r| == |s| + 1 && forall y: nat :: y in r <==> y == x || y in s
  {
    if s == [] then [x]
    else
      var n := |s| - 1;
      assert s == s[..n] + [s[n]];
      if Before(row, s[n], x) then s + [x] else Insert(row, s[..n], x) + [s[n]]
  }

  lemma {:induction false} InsertInOrder(row: seq<real>, s: seq<nat>, x: nat)
    requires x < |row| && InOrder(row, s) && x !in s
    ensures InOrder(row, Insert(row, s, x))
    decreases |s|
  {
    if s != [] {
      var n := |s| - 1;
      if !Before(row, s[n], x) {
        InsertInOrder(row, s[..n], x);
        var r := Insert(row, s[..n], x);
        forall a | 0 <= a < |r| ensures Before(row, r[a], s[n]) {
          assert r[a] in r;
        }
      }
    }
  }

  /** The reference order of the given indices. */
  function Order(row: seq<real>, s: seq<nat>): (r: seq<nat>)
    requires InRange(row, s)
    ensures InRange(row, r) && |r| == |s| && forall y: nat :: y in r <==> y in s
  {
    if s == [] then []
    else
      var n := |s| - 1;
      assert s == s[..n] + [s[n]];
      Insert(row, Order(row, s[..n]), s[n])
  }

  lemma {:induction false} OrderInOrder(row: seq<real>, s: seq<nat>)
    requires InRange(row, s) && Distinct(s)
    ensures InOrder(row, Order(row, s))
    decreases |s|
  {
    if s != [] {
      var n := |s| - 1;
      OrderInOrder(row, s[..n]);
      assert s[n] !in s[..n];
      InsertInOrder(row, Order(row, s[..n]), s[n]);
    }
  }

  lemma {:induction false} KeptUnique(row: seq<real>, low: real, n: nat)
    requires n <= |row|
    ensures Distinct(Kept(row, low, n))
  {
    if n > 0 {
      KeptUnique(row, low, n - 1);
      var s := Kept(row, low, n - 1);
      assert forall a :: 0 <= a < |s| ==> s[a] in s;
    }
  }

  lemma {:induction false} AllUnique(n: nat)
    ensures Distinct(All(n))
  {
    if n > 0 {
      AllUnique(n - 1);
      var s := All(n - 1);
      assert forall a :: 0 <= a < |s| ==> s[a] in s;
    }
  }

  lemma KeptInRange(row: seq<real>, low: real)
    ensures InRange(row, Kept(row, low, |row|))
  {
    var s := Kept(row, low, |row|);
    assert forall a :: 0 <= a < |s| ==> s[a] in s;
  }

  lemma AllInRange(row: seq<real>)
    ensures InRange(row, All(|row|))
  {
    var s := All(|row|);
    assert forall a :: 0 <= a < |s| ==> s[a] in s;
  }

  /** All tokens in reference order. */
  function Ranking(row: seq<real>): (r: seq<nat>)
    ensures |r| == |row| && InRange(row, r) && forall y: nat :: y in r <==> y < |row|
  {
    AllInRange(row);
    Order(row, All(|row|))
  }

  /** The tokens with value at least `low` in reference order. */
  function RankingFrom(row: seq<real>, low: real): (r: seq<nat>)
    ensures InRange(row, r) && forall y: nat :: y in r <==> y < |row| && row[y] >= low
  {
    KeptInRange(row, low);
    Order(row, Kept(row, low, |row|))
  }

  lemma RankingInOrder(row: seq<real>, low: real)
    ensures InOrder(row, Ranking(row)) && InOrder(row, RankingFrom(row, low))
  {
    AllInRange(row);
    AllUnique(|row|);
    OrderInOrder(row, All(|row|));
    KeptInRange(row, low);
    KeptUnique(row, low, |row|);
    OrderInOrder(row, Kept(row, low, |row|));
  }

  // -------------------------------------------------------------------------
  // Prefixes of an order
  // -------------------------------------------------------------------------

  /** `s` takes tokens with value at least `low` in order and leaves none out that comes earlier. */
  ghost predicate Leads(row: seq<real>, low: real, s: seq<nat>) {
    && InOrder(row, s)
    && (forall a :: 0 <= a < |s| ==> row[s[a]] >= low)
    && (forall a, y :: 0 <= a < |s| && 0 <= y < |row| && row[y] >= low && y !in s ==> Before(row, s[a], y))
  }

  lemma LeadsPrefix(row: seq<real>, low: real, s: seq<nat>, n: nat)
    requires Leads(row, low, s) && n <= |s|
    ensures Leads(row, low, s[..n])
  {
    forall a, y | 0 <= a < n && 0 <= y < |row| && row[y] >= low && y !in s[..n] ensures Before(row, s[a], y) {
      if y in s {
        var b :| 0 <= b < |s| && s[b] == y;
        assert b >= n;
      }
    }
  }

  /** Two leading sequences of the same length are equal. */
  lemma {:induction false} LeadsIsUnique(row: seq<real>, low: real, s: seq<nat>, t: seq<nat>)
    requires Leads(row, low, s) && Leads(row, low, t) && |s| == |t|
    ensures s == t
    decreases |s|
  {
    if s != [] {
      var n := |s| - 1;
      LeadsPrefix(row, low, s, n);
      LeadsPrefix(row, low, t, n);
      LeadsIsUnique(row, low, s[..n], t[..n]);
      LastIsFirstLeft(row, low, s, t[n]);
      LastIsFirstLeft(row, low, t, s[n]);
      assert s == s[..n] + [s[n]] && t == t[..n] + [t[n]];
    }
  }

  lemma LastIsFirstLeft(row: seq<real>, low: real, s: seq<nat>, y: nat)
    requires Leads(row, low, s) && s != [] && y < |row| && row[y] >= low && y !in s[..|s| - 1]
    ensures y == s[|s| - 1] || Before(row, s[|s| - 1], y)
  {
    assert s == s[..|s| - 1] + [s[|s| - 1]];
  }

  lemma RankingLeads(row: seq<real>, low: real)
    ensures Leads(row, low, RankingFrom(row, low))
  {
    RankingInOrder(row, low);
    var s := RankingFrom(row, low);
    assert forall a :: 0 <= a < |s| ==> s[a] in s;
  }

  lemma NextIsNew(row: seq<real>, s: seq<nat>, n: nat)
    requires InOrder(row, s) && n < |s|
    ensures s[n] !in s[..n]
  {
  }

  /** A leading sequence is not longer than a prefix that has all its tokens. */
  lemma NotLonger(row: seq<real>, low: real, s: seq<nat>, n: nat)
    requires Leads(row, low, s) && n <= |s| && forall y: nat :: y < |row| && row[y] >= low ==> y in s[..n]
    ensures n == |s|
  {
    if n < |s| {
      NextIsNew(row, s, n);
      assert false;
    }
  }

  /** A leading sequence is a prefix of the ranking. */
  lemma LeadsIsPrefix(row: seq<real>, low: real, s: seq<nat>)
    requires Leads(row, low, s)
    ensures |s| <= |RankingFrom(row, low)| && s == RankingFrom(row, low)[..|s|]
  {
    var r := RankingFrom(row, low);
    RankingLeads(row, low);
    if |r| <= |s| {
      LeadsPrefix(row, low, s, |r|);
      LeadsIsUnique(row, low, s[..|r|], r);
      NotLonger(row, low, s, |r|);
    } else {
      LeadsPrefix(row, low, r, |s|);
      LeadsIsUnique(row, low, s, r[..|s|]);
    }
  }

  /** A lower bound of all values. */
  function Least(row: seq<real>): (r: real)
    ensures forall i :: 0 <= i < |row| ==> row[i] >= r
  {
    if row == [] then 0.0
    else
      var r := Least(row[..|row| - 1]);
      if row[|row| - 1] < r then row[|row| - 1] else r
  }

  lemma RankingIsFromLeast(row: seq<real>)
    ensures RankingFrom(row, Least(row)) == Ranking(row)
  {
    KeptAll(row, Least(row), |row|);
  }

  /** Filtering by value keeps a prefix of the full ranking. */
  lemma FilterIsPrefix(row: seq<real>, low: real)
    ensures var r := RankingFrom(row, low); |r| <= |row| && r == Ranking(row)[..|r|]
  {
    RankingLeads(row, low);
    RankingIsFromLeast(row);
    assert Leads(row, Least(row), RankingFrom(row, low));
    LeadsIsPrefix(row, Least(row), RankingFrom(row, low));
  }

  lemma {:induction false} KeptSame(row: seq<real>, low: real, low': real, n: nat)
    requires n <= |row| && forall i :: 0 <= i < n ==> (row[i] >= low <==> row[i] >= low')
    ensures Kept(row, low, n) == Kept(row, low', n)
  {
    if n > 0 {
      KeptSame(row, low, low', n - 1);
    }
  }

  lemma {:induction false} KeptAll(row: seq<real>, low: real, n: nat)
    requires n <= |row| && forall i :: 0 <= i < n ==> row[i] >= low
    ensures Kept(row, low, n) == All(n)
  {
    if n > 0 {
      KeptAll(row, low, n - 1);
    }
  }
}
