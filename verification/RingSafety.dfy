/**
 When a ticket ring of any capacity is safe.  Producers and consumers drive the
 ring step by step in any interleaving, and at most `n` values are pushed.
 Every pop returns the value pushed under its own ticket, and no slot is
 overwritten before it is read, exactly when there is a single producer or the
 capacity is at least `n`.
 */
module RingSafety {
  import opened TicketRing
  import opened Arithmetic

  datatype ProdPc = PIdle | PWait(t: nat, v: nat) | PWrite(t: nat, v: nat) | PPublish(t: nat, v: nat)

  datatype ConsPc = CIdle | CSpin(t: nat) | CRead(t: nat) | CClear(t: nat, v: nat)

  datatype Sys = Sys(r: Ring, ps: seq<ProdPc>, cs: seq<ConsPc>, got: map<nat, nat>)

  // A producer that is idle when it moves pushes value `v` next.
  datatype Move = Prod(i: nat, v: nat) | Cons(i: nat)

  function ProdNext(r: Ring, n: nat, cap: nat, i: nat, pc: ProdPc, v: nat): (Ring, ProdPc) {
    match pc
    case PIdle => if r.tail < n then (DrawPush(r, i, v), PWait(r.tail, v)) else (r, PIdle)
    case PWait(t, u) => (r, if FlagOf(r, cap, t) != 0 then pc else PWrite(t, u))
    case PWrite(t, u) => (Write(r, cap, t, u), PPublish(t, u))
    case PPublish(t, u) => (Publish(r, cap, t), PIdle)
  }

  function ConsNext(r: Ring, n: nat, cap: nat, i: nat, pc: ConsPc): (Ring, ConsPc) {
    match pc
    case CIdle => (DrawPop(r, i), if r.head >= n then CIdle else CSpin(r.head))
    case CSpin(t) => (r, if FlagOf(r, cap, t) == t + 1 then CRead(t) else pc)
    case CRead(t) => (r, CClear(t, ValueOf(r, cap, t)))
    case CClear(t, v) => (Clear(r, cap, t), CIdle)
  }

  function SysStep(s: Sys, n: nat, cap: nat, a: Move): Sys {
    match a
    case Prod(i, v) =>
      if i < |s.ps| then
        var (r, pc) := ProdNext(s.r, n, cap, i, s.ps[i], v);
        s.(r := r, ps := s.ps[i := pc])
      else s
    case Cons(i) =>
      if i < |s.cs| then
        var (r, pc) := ConsNext(s.r, n, cap, i, s.cs[i]);
        s.(r := r, cs := s.cs[i := pc], got := if s.cs[i].CClear? then s.got[s.cs[i].t := s.cs[i].v] else s.got)
      else s
  }

  function SysRun(s: Sys, n: nat, cap: nat, moves: seq<Move>): Sys {
    if moves == [] then s else SysStep(SysRun(s, n, cap, moves[..|moves| - 1]), n, cap, moves[|moves| - 1])
  }

  function Start(cap: nat, producers: nat, consumers: nat): Sys {
    Sys(Empty(cap), seq(producers, _ => PIdle), seq(consumers, _ => CIdle), map[])
  }

  // -------------------------------------------------------------------------
  // What safety means
  // -------------------------------------------------------------------------

  /** Every pop that has finished returned the value pushed under its ticket. */
  ghost predicate ReturnsPushed(s: Sys) {
    forall t :: t in s.got ==> t < |s.r.vals| && s.got[t] == s.r.vals[t]
  }

  /** No producer is about to overwrite a value that is published and not yet read. */
  ghost predicate NoOverwrite(s: Sys, cap: nat) {
    forall i, k :: 0 <= i < |s.ps| && s.ps[i].PWrite? && 0 <= k < |s.r.phase| && s.r.phase[k].Published? ==>
      Slot(cap, k) != Slot(cap, s.ps[i].t)
  }

  ghost predicate Safe(s: Sys, cap: nat) {
    ReturnsPushed(s) && NoOverwrite(s, cap)
  }

  // -------------------------------------------------------------------------
  // The invariant
  // -------------------------------------------------------------------------

  /** The slot of a published ticket shows the ticket and its value. */
  ghost predicate Shown(r: Ring, cap: nat) {
    forall k :: 0 <= k < |r.phase| && k < |r.vals| && r.phase[k].Published? ==>
      FlagOf(r, cap, k) == k + 1 && ValueOf(r, cap, k) == r.vals[k]
  }

  /** A flag that is set belongs to a published ticket of its slot. */
  ghost predicate Labelled(r: Ring, cap: nat) {
    forall s :: 0 <= s < |r.flags| && r.flags[s] != 0 ==>
      var k := r.flags[s] - 1; k < |r.phase| && r.phase[k].Published? && Slot(cap, k) == s
  }

  ghost predicate SlotsOk(r: Ring, cap: nat) {
    && |r.queue| == |r.flags| == cap > 0
    && r.tail == |r.vals| == |r.phase| == |r.pushers|
    && r.head == |r.takers|
    && Shown(r, cap) && Labelled(r, cap)
    && (forall k :: 0 <= k < r.tail && r.phase[k].Consumed? ==> k < r.head)
  }

  /** No two pushes in progress share a slot. */
  ghost predicate Exclusive(r: Ring, cap: nat) {
    forall j, k :: 0 <= j < k < |r.phase| && r.phase[j].Reserved? && r.phase[k].Reserved? ==>
      Slot(cap, j) != Slot(cap, k)
  }

  ghost predicate ProdOk(r: Ring, cap: nat, i: nat, pc: ProdPc) {
    match pc
    case PIdle => true
    case PWait(t, v) => Holding(r, i, t, v)
    case PWrite(t, v) => Holding(r, i, t, v) && FlagOf(r, cap, t) == 0
    case PPublish(t, v) => Holding(r, i, t, v) && FlagOf(r, cap, t) == 0 && ValueOf(r, cap, t) == v
  }

  ghost predicate ConsOk(r: Ring, i: nat, pc: ConsPc) {
    match pc
    case CIdle => true
    case CSpin(t) => Taking(r, i, t)
    case CRead(t) => Reading(r, i, t)
    case CClear(t, v) => Reading(r, i, t) && v == r.vals[t]
  }

  /** A lone producer has at most one push in progress. */
  ghost predicate LoneProducer(r: Ring, pc: ProdPc) {
    forall k :: 0 <= k < |r.phase| && r.phase[k].Reserved? ==> !pc.PIdle? && pc.t == k
  }

  ghost predicate GotOk(s: Sys) {
    forall t :: t in s.got ==> t < |s.r.phase| && t < |s.r.vals| && s.r.phase[t].Consumed? && s.got[t] == s.r.vals[t]
  }

  ghost predicate SysInv(s: Sys, n: nat, cap: nat) {
    && SlotsOk(s.r, cap) && Exclusive(s.r, cap) && s.r.tail <= n
    && (|s.ps| == 1 ==> LoneProducer(s.r, s.ps[0]))
    && (forall i :: 0 <= i < |s.ps| ==> ProdOk(s.r, cap, i, s.ps[i]))
    && (forall i :: 0 <= i < |s.cs| ==> ConsOk(s.r, i, s.cs[i]))
    && GotOk(s)
  }

  lemma InvIsSafe(s: Sys, n: nat, cap: nat)
    requires SysInv(s, n, cap)
    ensures Safe(s, cap)
  {
  }

  // -------------------------------------------------------------------------
  // Ring steps
  // -------------------------------------------------------------------------

  lemma DrawKeepsExclusive(r: Ring, n: nat, cap: nat, i: nat, v: nat)
    requires Exclusive(r, cap) && r.tail == |r.phase| < n
    requires n <= cap || forall k :: 0 <= k < r.tail ==> !r.phase[k].Reserved?
    ensures Exclusive(DrawPush(r, i, v), cap)
  {
    var r' := DrawPush(r, i, v);
    forall j, k | 0 <= j < k < |r'.phase| && r'.phase[j].Reserved? && r'.phase[k].Reserved?
      ensures Slot(cap, j) != Slot(cap, k)
    {
      if k == r.tail {
        assert r.phase[j].Reserved?;
        SlotIsTicket(n, cap, j);
        SlotIsTicket(n, cap, k);
      }
    }
  }

  lemma DrawKeeps(r: Ring, cap: nat, i: nat, v: nat)
    requires SlotsOk(r, cap)
    ensures SlotsOk(DrawPush(r, i, v), cap)
  {
  }

  lemma WriteKeeps(r: Ring, cap: nat, i: nat, t: nat, v: nat)
    requires SlotsOk(r, cap) && Exclusive(r, cap) && ProdOk(r, cap, i, PWrite(t, v))
    ensures var r' := Write(r, cap, t, v); SlotsOk(r', cap) && Exclusive(r', cap) && ProdOk(r', cap, i, PPublish(t, v))
  {
  }

  lemma PublishShows(r: Ring, cap: nat, i: nat, t: nat, v: nat)
    requires SlotsOk(r, cap) && ProdOk(r, cap, i, PPublish(t, v))
    ensures Shown(Publish(r, cap, t), cap)
  {
    var r' := Publish(r, cap, t);
    forall k | 0 <= k < r'.tail && r'.phase[k].Published?
      ensures FlagOf(r', cap, k) == k + 1 && ValueOf(r', cap, k) == r'.vals[k]
    {
      if k != t {
        assert FlagOf(r, cap, k) == k + 1;
      }
    }
  }

  lemma PublishLabels(r: Ring, cap: nat, i: nat, t: nat, v: nat)
    requires SlotsOk(r, cap) && ProdOk(r, cap, i, PPublish(t, v))
    ensures Labelled(Publish(r, cap, t), cap)
  {
    var r' := Publish(r, cap, t);
    forall s | 0 <= s < cap && r'.flags[s] != 0
      ensures var k := r'.flags[s] - 1; k < r'.tail && r'.phase[k].Published? && Slot(cap, k) == s
    {
      if s != Slot(cap, t) {
        assert r.flags[s] != 0;
      }
    }
  }

  /** A push or pop that moves its ticket on leaves the pushes in progress exclusive. */
  lemma FewerReserved(r: Ring, r': Ring, cap: nat)
    requires Exclusive(r, cap) && |r'.phase| == |r.phase|
    requires forall k :: 0 <= k < |r.phase| && r'.phase[k].Reserved? ==> r.phase[k].Reserved?
    ensures Exclusive(r', cap)
  {
  }

  lemma PublishKeeps(r: Ring, cap: nat, i: nat, t: nat, v: nat)
    requires SlotsOk(r, cap) && Exclusive(r, cap) && ProdOk(r, cap, i, PPublish(t, v))
    ensures var r' := Publish(r, cap, t); SlotsOk(r', cap) && Exclusive(r', cap)
  {
    PublishShows(r, cap, i, t, v);
    PublishLabels(r, cap, i, t, v);
    FewerReserved(r, Publish(r, cap, t), cap);
  }

  lemma ClearShows(r: Ring, cap: nat, i: nat, t: nat)
    requires SlotsOk(r, cap) && Reading(r, i, t)
    ensures Shown(Clear(r, cap, t), cap)
  {
    assert FlagOf(r, cap, t) == t + 1;
  }

  lemma ClearLabels(r: Ring, cap: nat, i: nat, t: nat)
    requires SlotsOk(r, cap) && Reading(r, i, t)
    ensures Labelled(Clear(r, cap, t), cap)
  {
    assert FlagOf(r, cap, t) == t + 1;
  }

  lemma ClearKeeps(r: Ring, cap: nat, i: nat, t: nat)
    requires SlotsOk(r, cap) && Exclusive(r, cap) && Reading(r, i, t)
    ensures var r' := Clear(r, cap, t); SlotsOk(r', cap) && Exclusive(r', cap)
  {
    ClearShows(r, cap, i, t);
    ClearLabels(r, cap, i, t);
    FewerReserved(r, Clear(r, cap, t), cap);
  }

  /** A producer step leaves the other producers' and the consumers' knowledge intact. */
  lemma ProdKeepsProd(r: Ring, n: nat, cap: nat, i: nat, pc: ProdPc, v: nat, j: nat, q: ProdPc)
    requires SlotsOk(r, cap) && Exclusive(r, cap) && ProdOk(r, cap, i, pc) && ProdOk(r, cap, j, q) && i != j
    ensures ProdOk(ProdNext(r, n, cap, i, pc, v).0, cap, j, q)
  {
    if !q.PIdle? && !pc.PIdle? {
      assert pc.t != q.t;
    }
  }

  lemma ProdKeepsCons(r: Ring, n: nat, cap: nat, i: nat, pc: ProdPc, v: nat, j: nat, q: ConsPc)
    requires SlotsOk(r, cap) && ProdOk(r, cap, i, pc) && ConsOk(r, j, q)
    ensures ConsOk(ProdNext(r, n, cap, i, pc, v).0, j, q)
  {
  }

  lemma ConsKeepsProd(r: Ring, n: nat, cap: nat, i: nat, pc: ConsPc, j: nat, q: ProdPc)
    requires SlotsOk(r, cap) && ConsOk(r, i, pc) && ProdOk(r, cap, j, q)
    ensures ProdOk(ConsNext(r, n, cap, i, pc).0, cap, j, q)
  {
  }

  lemma ConsKeepsCons(r: Ring, n: nat, cap: nat, i: nat, pc: ConsPc, j: nat, q: ConsPc)
    requires SlotsOk(r, cap) && ConsOk(r, i, pc) && ConsOk(r, j, q) && i != j
    ensures ConsOk(ConsNext(r, n, cap, i, pc).0, j, q)
  {
  }

  lemma ConsKeepsOwn(r: Ring, n: nat, cap: nat, i: nat, pc: ConsPc)
    requires SlotsOk(r, cap) && ConsOk(r, i, pc)
    ensures ConsOk(ConsNext(r, n, cap, i, pc).0, i, ConsNext(r, n, cap, i, pc).1)
  {
  }

  lemma ProdRingKeeps(s: Sys, n: nat, cap: nat, i: nat, v: nat)
    requires SysInv(s, n, cap) && i < |s.ps| && (|s.ps| == 1 || n <= cap)
    ensures var r' := ProdNext(s.r, n, cap, i, s.ps[i], v).0; SlotsOk(r', cap) && Exclusive(r', cap) && r'.tail <= n
  {
    var pc := s.ps[i];
    assert ProdOk(s.r, cap, i, pc);
    match pc {
      case PIdle =>
        if s.r.tail < n {
          DrawKeepsExclusive(s.r, n, cap, i, v);
          DrawKeeps(s.r, cap, i, v);
        }
      case PWait(t, u) =>
      case PWrite(t, u) => WriteKeeps(s.r, cap, i, t, u);
      case PPublish(t, u) => PublishKeeps(s.r, cap, i, t, u);
    }
  }

  lemma ProdKeepsOwn(r: Ring, n: nat, cap: nat, i: nat, pc: ProdPc, v: nat)
    requires SlotsOk(r, cap) && ProdOk(r, cap, i, pc)
    ensures ProdOk(ProdNext(r, n, cap, i, pc, v).0, cap, i, ProdNext(r, n, cap, i, pc, v).1)
    ensures LoneProducer(r, pc) ==> LoneProducer(ProdNext(r, n, cap, i, pc, v).0, ProdNext(r, n, cap, i, pc, v).1)
  {
  }

  lemma ProdStepKeeps(s: Sys, n: nat, cap: nat, i: nat, v: nat)
    requires SysInv(s, n, cap) && i < |s.ps| && (|s.ps| == 1 || n <= cap)
    ensures SysInv(SysStep(s, n, cap, Prod(i, v)), n, cap)
  {
    var s' := SysStep(s, n, cap, Prod(i, v));
    var pc := s.ps[i];
    assert ProdOk(s.r, cap, i, pc);
    ProdRingKeeps(s, n, cap, i, v);
    ProdKeepsOwn(s.r, n, cap, i, pc, v);
    forall j | 0 <= j < |s.ps| ensures ProdOk(s'.r, cap, j, s'.ps[j]) {
      if j != i {
        ProdKeepsProd(s.r, n, cap, i, pc, v, j, s.ps[j]);
      }
    }
    forall j | 0 <= j < |s.cs| ensures ConsOk(s'.r, j, s'.cs[j]) {
      ProdKeepsCons(s.r, n, cap, i, pc, v, j, s.cs[j]);
    }
  }

  lemma ConsStepKeeps(s: Sys, n: nat, cap: nat, i: nat)
    requires SysInv(s, n, cap) && i < |s.cs|
    ensures SysInv(SysStep(s, n, cap, Cons(i)), n, cap)
  {
    var s' := SysStep(s, n, cap, Cons(i));
    var pc := s.cs[i];
    assert ConsOk(s.r, i, pc);
    if pc.CClear? {
      ClearKeeps(s.r, cap, i, pc.t);
    }
    forall j | 0 <= j < |s.ps| ensures ProdOk(s'.r, cap, j, s'.ps[j]) {
      ConsKeepsProd(s.r, n, cap, i, pc, j, s.ps[j]);
    }
    forall j | 0 <= j < |s.cs| ensures ConsOk(s'.r, j, s'.cs[j]) {
      if j == i {
        ConsKeepsOwn(s.r, n, cap, i, pc);
      } else {
        ConsKeepsCons(s.r, n, cap, i, pc, j, s.cs[j]);
      }
    }
  }

  lemma {:induction false} SysRunKeeps(n: nat, cap: nat, producers: nat, consumers: nat, moves: seq<Move>)
    requires cap > 0 && (producers <= 1 || n <= cap)
    ensures var s := SysRun(Start(cap, producers, consumers), n, cap, moves);
      SysInv(s, n, cap) && |s.ps| == producers && |s.cs| == consumers
    decreases |moves|
  {
    if moves != [] {
      var before := moves[..|moves| - 1];
      SysRunKeeps(n, cap, producers, consumers, before);
      var s := SysRun(Start(cap, producers, consumers), n, cap, before);
      match moves[|moves| - 1] {
        case Prod(i, v) => if i < |s.ps| { ProdStepKeeps(s, n, cap, i, v); }
        case Cons(i) => if i < |s.cs| { ConsStepKeeps(s, n, cap, i); }
      }
    }
  }

  // -------------------------------------------------------------------------
  // The unsafe launches
  // -------------------------------------------------------------------------

  lemma SysRunNext(s: Sys, n: nat, cap: nat, moves: seq<Move>, a: Move)
    ensures SysRun(s, n, cap, moves + [a]) == SysStep(SysRun(s, n, cap, moves), n, cap, a)
  {
    assert (moves + [a])[..|moves + [a]| - 1] == moves;
  }

  /** Producer 0 is stuck just before publishing ticket 0; producer 1 has pushed tickets 1 to k-1. */
  ghost predicate Stuck(s: Sys, cap: nat, k: nat) {
    && |s.ps| >= 2 && |s.cs| >= 1 && s.ps[0] == PPublish(0, 0) && s.ps[1] == PIdle && s.cs[0] == CIdle
    && s.r.head == 0 && s.r.tail == k == |s.r.vals| && k >= 1 && s.r.vals[0] == 0
    && |s.r.flags| == |s.r.queue| == cap && cap > 0
    && s.r.flags[0] == 0 && (forall j :: k <= j < cap ==> s.r.flags[j] == 0)
  }

  lemma GetsStuck(n: nat, cap: nat, producers: nat, consumers: nat)
    requires n > cap > 0 && producers >= 2 && consumers >= 1
    ensures Stuck(SysRun(Start(cap, producers, consumers), n, cap, [] + [Prod(0, 0)] + [Prod(0, 0)] + [Prod(0, 0)]), cap, 1)
  {
    var s, a := Start(cap, producers, consumers), Prod(0, 0);
    SysRunNext(s, n, cap, [], a);
    assert SysStep(s, n, cap, a).ps[0] == PWait(0, 0);
    SysRunNext(s, n, cap, [] + [a], a);
    SysRunNext(s, n, cap, [] + [a] + [a], a);
  }

  lemma OtherPushes(s: Sys, n: nat, cap: nat, k: nat)
    requires Stuck(s, cap, k) && k < cap < n
    ensures var a := Prod(1, 1);
      Stuck(SysStep(SysStep(SysStep(SysStep(s, n, cap, a), n, cap, a), n, cap, a), n, cap, a), cap, k + 1)
  {
    SlotIsTicket(cap, cap, k);
    var s1 := SysStep(s, n, cap, Prod(1, 1));
    assert s1.ps[1] == PWait(k, 1);
    var s2 := SysStep(s1, n, cap, Prod(1, 1));
    assert s2.ps[1] == PWrite(k, 1);
    var s3 := SysStep(s2, n, cap, Prod(1, 1));
    assert s3.ps[1] == PPublish(k, 1);
  }

  lemma RunThree(s: Sys, n: nat, cap: nat, moves: seq<Move>, a: Move)
    ensures SysRun(s, n, cap, moves + [a] + [a] + [a]) ==
            SysStep(SysStep(SysStep(SysRun(s, n, cap, moves), n, cap, a), n, cap, a), n, cap, a)
  {
    SysRunNext(s, n, cap, moves, a);
    SysRunNext(s, n, cap, moves + [a], a);
    SysRunNext(s, n, cap, moves + [a] + [a], a);
  }

  lemma {:induction false} GetsFull(n: nat, cap: nat, producers: nat, consumers: nat, k: nat) returns (moves: seq<Move>)
    requires 1 <= k <= cap < n && producers >= 2 && consumers >= 1
    ensures Stuck(SysRun(Start(cap, producers, consumers), n, cap, moves), cap, k)
  {
    var s := Start(cap, producers, consumers);
    if k == 1 {
      GetsStuck(n, cap, producers, consumers);
      moves := [] + [Prod(0, 0)] + [Prod(0, 0)] + [Prod(0, 0)];
    } else {
      var before := GetsFull(n, cap, producers, consumers, k - 1);
      OtherPushes(SysRun(s, n, cap, before), n, cap, k - 1);
      RunThree(s, n, cap, before, Prod(1, 1));
      var three := before + [Prod(1, 1)] + [Prod(1, 1)] + [Prod(1, 1)];
      SysRunNext(s, n, cap, three, Prod(1, 1));
      moves := three + [Prod(1, 1)];
    }
  }

  /** Ticket `cap` has overwritten slot 0 before ticket 0 is published. */
  ghost predicate Overwritten(s: Sys, cap: nat) {
    && |s.ps| >= 2 && |s.cs| >= 1 && s.ps[0] == PPublish(0, 0) && s.cs[0] == CIdle
    && s.r.head == 0 && |s.r.vals| > 0 && s.r.vals[0] == 0
    && |s.r.flags| == |s.r.queue| == cap && cap > 0 && s.r.queue[0] == 1
  }

  lemma Overwrites(s: Sys, n: nat, cap: nat)
    requires Stuck(s, cap, cap) && cap < n
    ensures var a := Prod(1, 1); Overwritten(SysStep(SysStep(SysStep(s, n, cap, a), n, cap, a), n, cap, a), cap)
  {
    RemainderOf(cap, cap, 1, 0);
    var s1 := SysStep(s, n, cap, Prod(1, 1));
    assert s1.ps[1] == PWait(cap, 1);
    var s2 := SysStep(s1, n, cap, Prod(1, 1));
    assert s2.ps[1] == PWrite(cap, 1);
  }

  lemma WrongValue(s: Sys, n: nat, cap: nat)
    requires Overwritten(s, cap) && n > 0
    ensures var s0, a := SysStep(s, n, cap, Prod(0, 0)), Cons(0);
      !ReturnsPushed(SysStep(SysStep(SysStep(SysStep(s0, n, cap, a), n, cap, a), n, cap, a), n, cap, a))
  {
    var s0 := SysStep(s, n, cap, Prod(0, 0));
    SlotIsTicket(cap, cap, 0);
    assert s0.r.flags[0] == 1 && s0.r.queue[0] == 1;
    var s1 := SysStep(s0, n, cap, Cons(0));
    assert s1.cs[0] == CSpin(0);
    var s2 := SysStep(s1, n, cap, Cons(0));
    assert s2.cs[0] == CRead(0);
    var s3 := SysStep(s2, n, cap, Cons(0));
    assert s3.cs[0] == CClear(0, 1);
    var s4 := SysStep(s3, n, cap, Cons(0));
    assert s4.got[0] == 1 && s4.r.vals[0] == 0;
  }

  /** Two producers and more pushes than slots: some interleaving pops a wrong value. */
  lemma CanPopWrongValue(n: nat, cap: nat, producers: nat, consumers: nat) returns (moves: seq<Move>)
    requires n > cap > 0 && producers >= 2 && consumers >= 1
    ensures !ReturnsPushed(SysRun(Start(cap, producers, consumers), n, cap, moves))
  {
    var s := Start(cap, producers, consumers);
    var m1 := GetsFull(n, cap, producers, consumers, cap);
    Overwrites(SysRun(s, n, cap, m1), n, cap);
    RunThree(s, n, cap, m1, Prod(1, 1));
    var m2 := m1 + [Prod(1, 1)] + [Prod(1, 1)] + [Prod(1, 1)];
    WrongValue(SysRun(s, n, cap, m2), n, cap);
    var m3 := m2 + [Prod(0, 0)];
    SysRunNext(s, n, cap, m2, Prod(0, 0));
    RunThree(s, n, cap, m3, Cons(0));
    var m4 := m3 + [Cons(0)] + [Cons(0)] + [Cons(0)];
    SysRunNext(s, n, cap, m4, Cons(0));
    moves := m4 + [Cons(0)];
  }

  /** Every reachable state of every interleaving is safe. */
  ghost predicate AlwaysSafe(n: nat, cap: nat, producers: nat, consumers: nat) {
    forall moves :: Safe(SysRun(Start(cap, producers, consumers), n, cap, moves), cap)
  }

  /** A ring is safe for `n` pushes exactly when it has a single producer or a slot for each push. */
  lemma RingSafeIff(n: nat, cap: nat, producers: nat, consumers: nat)
    requires cap > 0 && consumers >= 1
    ensures AlwaysSafe(n, cap, producers, consumers) <==> producers <= 1 || n <= cap
  {
    if producers <= 1 || n <= cap {
      forall moves ensures Safe(SysRun(Start(cap, producers, consumers), n, cap, moves), cap) {
        SysRunKeeps(n, cap, producers, consumers, moves);
        InvIsSafe(SysRun(Start(cap, producers, consumers), n, cap, moves), n, cap);
      }
    } else {
      var moves := CanPopWrongValue(n, cap, producers, consumers);
      assert !Safe(SysRun(Start(cap, producers, consumers), n, cap, moves), cap);
    }
  }
}
