/**
 The ticketed ring queue shared by the ready queue and the completion queue of
 the persistent DAG executor.

 A push draws a ticket from `tail`, waits until the flag of its slot is zero,
 writes the value and then publishes `ticket + 1` in the flag.  A pop draws a
 ticket from `head`, waits until the flag shows `ticket + 1`, reads the value
 and then clears the flag.  Each of these is one step here.

 `vals`, `phase`, `pushers` and `takers` are history: they record what has
 happened to each ticket and no operation ever reads them.
 */
module TicketRing {

  datatype Phase = Reserved | Published | Consumed

  datatype Ring = Ring(
    queue: seq<nat>,
    flags: seq<nat>,
    head: nat,
    tail: nat,
    vals: seq<nat>,      // value pushed under each ticket
    phase: seq<Phase>,   // how far each push ticket has got
    pushers: seq<nat>,   // block that drew each push ticket
    takers: seq<nat>)    // block that drew each pop ticket

  function Slot(cap: nat, ticket: nat): nat {
    if cap == 0 then 0 else ticket % cap
  }

  function Load(buf: seq<nat>, i: nat): nat {
    if i < |buf| then buf[i] else 0
  }

  function Store<T>(buf: seq<T>, i: nat, v: T): (r: seq<T>) {
    if i < |buf| then buf[i := v] else buf
  }

  function Empty(cap: nat): Ring {
    Ring(seq(cap, _ => 0), seq(cap, _ => 0), 0, 0, [], [], [], [])
  }

  function DrawPush(r: Ring, who: nat, v: nat): Ring {
    r.(tail := r.tail + 1, vals := r.vals + [v], phase := r.phase + [Reserved], pushers := r.pushers + [who])
  }

  function Write(r: Ring, cap: nat, t: nat, v: nat): Ring {
    r.(queue := Store(r.queue, Slot(cap, t), v))
  }

  function Publish(r: Ring, cap: nat, t: nat): Ring {
    r.(flags := Store(r.flags, Slot(cap, t), t + 1), phase := Store(r.phase, t, Published))
  }

  function DrawPop(r: Ring, who: nat): Ring {
    r.(head := r.head + 1, takers := r.takers + [who])
  }

  function Clear(r: Ring, cap: nat, t: nat): Ring {
    r.(flags := Store(r.flags, Slot(cap, t), 0), phase := Store(r.phase, t, Consumed))
  }

  /** The flag of the slot that `t` maps to. */
  function FlagOf(r: Ring, cap: nat, t: nat): nat {
    Load(r.flags, Slot(cap, t))
  }

  /** The value in the slot that `t` maps to. */
  function ValueOf(r: Ring, cap: nat, t: nat): nat {
    Load(r.queue, Slot(cap, t))
  }

  // -------------------------------------------------------------------------
  // Invariant of a ring that issues at most `n <= cap` push tickets
  // -------------------------------------------------------------------------

  ghost predicate RingInv(r: Ring, n: nat, cap: nat) {
    && n <= cap
    && |r.queue| == |r.flags| == cap
    && r.tail == |r.vals| == |r.phase| == |r.pushers|
    && r.head == |r.takers|
    && r.tail <= n
    && (forall k :: 0 <= k < r.tail ==> r.flags[k] == if r.phase[k].Published? then k + 1 else 0)
    && (forall k :: r.tail <= k < cap ==> r.flags[k] == 0)
    && (forall k :: 0 <= k < r.tail && r.phase[k].Published? ==> r.queue[k] == r.vals[k])
    && (forall k :: 0 <= k < r.tail && r.phase[k].Consumed? ==> k < r.head)
  }

  /** Block `who` drew push ticket `t` for value `v` and has not published it yet. */
  ghost predicate Holding(r: Ring, who: nat, t: nat, v: nat) {
    t < r.tail && t < |r.vals| && t < |r.phase| && t < |r.pushers| &&
    r.pushers[t] == who && r.vals[t] == v && r.phase[t].Reserved?
  }

  /** Block `who` drew pop ticket `t` and has not consumed it yet. */
  ghost predicate Taking(r: Ring, who: nat, t: nat) {
    t < r.head && t < |r.takers| && r.takers[t] == who && (t < |r.phase| ==> !r.phase[t].Consumed?)
  }

  /** Block `who` has pop ticket `t` and has seen the flag published. */
  ghost predicate Reading(r: Ring, who: nat, t: nat) {
    Taking(r, who, t) && t < r.tail && t < |r.vals| && t < |r.phase| && r.phase[t].Published?
  }

  /** Block `who` has consumed pop ticket `t` and got value `v`. */
  ghost predicate Took(r: Ring, who: nat, t: nat, v: nat) {
    t < r.head && t < |r.takers| && t < r.tail && t < |r.vals| && t < |r.phase| &&
    r.takers[t] == who && r.vals[t] == v && r.phase[t].Consumed?
  }

  /** One step only extends the history, and a fresh ticket starts reserved. */
  ghost predicate Grows(r: Ring, r': Ring) {
    && r.head <= r'.head && r.tail <= r'.tail
    && r.vals <= r'.vals && r.pushers <= r'.pushers && r.takers <= r'.takers
    && |r.phase| <= |r'.phase|
    && (forall k :: |r.phase| <= k < |r'.phase| ==> r'.phase[k].Reserved?)
  }

  /** A step leaves alone every push that `who` has in progress. */
  ghost predicate KeepsPush(r: Ring, r': Ring, who: nat) {
    |r.phase| <= |r'.phase| &&
    forall k :: 0 <= k < |r.phase| && k < |r.pushers| && r.pushers[k] == who && r.phase[k].Reserved? ==>
      r'.phase[k].Reserved? && (k < |r.queue| ==> k < |r'.queue| && r'.queue[k] == r.queue[k])
  }

  /** A step leaves alone every pop ticket that `who` holds. */
  ghost predicate KeepsTake(r: Ring, r': Ring, who: nat) {
    |r.phase| <= |r'.phase| &&
    forall k :: 0 <= k < |r.phase| && k < |r.takers| && r.takers[k] == who ==>
      && (r.phase[k].Consumed? <==> r'.phase[k].Consumed?)
      && (r.phase[k].Published? ==> r'.phase[k].Published?)
  }

  lemma SlotIsTicket(n: nat, cap: nat, t: nat)
    requires t < n <= cap
    ensures Slot(cap, t) == t
  {
  }

  /** A pusher never finds its slot occupied, so its wait loop ends at once. */
  lemma HoldingSlotIsFree(r: Ring, n: nat, cap: nat, who: nat, t: nat, v: nat)
    requires RingInv(r, n, cap) && Holding(r, who, t, v)
    ensures FlagOf(r, cap, t) == 0
  {
    SlotIsTicket(n, cap, t);
  }

  /** The flag shows `t + 1` exactly while ticket `t` is published and not consumed. */
  lemma FlagMeansPublished(r: Ring, n: nat, cap: nat, t: nat)
    requires RingInv(r, n, cap) && t < n
    ensures FlagOf(r, cap, t) == t + 1 <==> t < r.tail && r.phase[t].Published?
  {
    SlotIsTicket(n, cap, t);
  }

  /** The value read under pop ticket `t` is the value pushed under push ticket `t`. */
  lemma ReadsPushedValue(r: Ring, n: nat, cap: nat, who: nat, t: nat)
    requires RingInv(r, n, cap) && Reading(r, who, t)
    ensures ValueOf(r, cap, t) == r.vals[t]
  {
    SlotIsTicket(n, cap, t);
  }

  lemma EmptyOk(n: nat, cap: nat)
    requires n <= cap
    ensures RingInv(Empty(cap), n, cap)
  {
  }

  lemma DrawPushOk(r: Ring, n: nat, cap: nat, who: nat, v: nat)
    requires RingInv(r, n, cap) && r.tail < n
    ensures var r' := DrawPush(r, who, v);
      && RingInv(r', n, cap) && Grows(r, r') && Holding(r', who, r.tail, v)
      && (forall a :: KeepsPush(r, r', a)) && (forall a :: KeepsTake(r, r', a))
  {
  }

  lemma WriteOk(r: Ring, n: nat, cap: nat, who: nat, t: nat, v: nat)
    requires RingInv(r, n, cap) && Holding(r, who, t, v)
    ensures var r' := Write(r, cap, t, v);
      && RingInv(r', n, cap) && Grows(r, r') && Holding(r', who, t, v) && r'.queue[t] == v
      && (forall a :: a != who ==> KeepsPush(r, r', a)) && (forall a :: KeepsTake(r, r', a))
  {
    SlotIsTicket(n, cap, t);
  }

  lemma PublishOk(r: Ring, n: nat, cap: nat, who: nat, t: nat, v: nat)
    requires RingInv(r, n, cap) && Holding(r, who, t, v) && r.queue[t] == v
    ensures var r' := Publish(r, cap, t);
      && RingInv(r', n, cap) && Grows(r, r')
      && (forall a :: a != who ==> KeepsPush(r, r', a)) && (forall a :: KeepsTake(r, r', a))
  {
    SlotIsTicket(n, cap, t);
  }

  lemma DrawPopOk(r: Ring, n: nat, cap: nat, who: nat)
    requires RingInv(r, n, cap)
    ensures var r' := DrawPop(r, who);
      && RingInv(r', n, cap) && Grows(r, r') && Taking(r', who, r.head)
      && (forall a :: KeepsPush(r, r', a)) && (forall a :: KeepsTake(r, r', a))
  {
  }

  lemma ClearOk(r: Ring, n: nat, cap: nat, who: nat, t: nat)
    requires RingInv(r, n, cap) && Reading(r, who, t)
    ensures var r' := Clear(r, cap, t);
      && RingInv(r', n, cap) && Grows(r, r') && Took(r', who, t, r.vals[t])
      && (forall a :: KeepsPush(r, r', a)) && (forall a :: a != who ==> KeepsTake(r, r', a))
  {
    SlotIsTicket(n, cap, t);
  }
}
