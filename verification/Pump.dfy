/**
  One connection of the lane: its slot, its engine feed and the pump thread that turns engine
  events into published VPN states.

  Each pump step is one slot critical section, one publication or one engine read. The three
  reads of the drop reconciliation are separate steps taken under one slot guard.
 */
module Pump {
  import opened Wrappers
  import opened Feed

  /** Who, if anyone, has taken the connection out of its slot. */
  datatype Slot = NotYet | Full | TakenByTeardown | TakenByPump

  /** Where a reconciliation pass was started from, hence where it continues. */
  datatype Context = Before(event: Event) | After | Quiet

  datatype Stage = Criticals | Count | Snapshot

  datatype Pc =
    | NotStarted
    | Receive
    | Reconcile(stage: Stage, context: Context)
    | Handle(event: Event)
    | Probe
    | Claim
    | Closing
    | Announcing
    | RetireLane
    | Exited

  /**
    The pump's locals. `considered` is the number of the last engine state the pump decided
    about (published, or found equal to what it published last); no step reads it.
   */
  datatype Locals = Locals(
    pc: Pc,
    last: Option<VpnState>,
    watermark: nat,
    backlog: bool,
    pending: Option<Event>,
    considered: nat)

  /** `disconnects` counts the calls of the connection's own disconnect. */
  datatype Conn = Conn(slot: Slot, disconnects: nat, feed: Feed, pump: Locals)

  const FRESH_CONN :=
    Conn(NotYet, 0, EMPTY_FEED, Locals(NotStarted, None, 0, false, None, 0))

  predicate Live(cn: Conn) { cn.disconnects == 0 }

  /** The pump is in its receive loop and has not claimed the connection. */
  predicate Looping(pc: Pc) {
    pc.Receive? || pc.Reconcile? || pc.Handle? || pc.Probe? || pc.Claim?
  }

  /** The pump has taken the connection and is shutting it down. */
  predicate Claimed(pc: Pc) { pc.Closing? || pc.Announcing? || pc.RetireLane? }

  predicate Running(pc: Pc) { !pc.NotStarted? && !pc.Exited? }

  /** The pump holds the slot guard between this step and the next. */
  predicate GuardHeld(pc: Pc) { pc.Reconcile? && !pc.stage.Criticals? }

  function At(cn: Conn, pc: Pc): Conn { cn.(pump := cn.pump.(pc := pc)) }

  function Resume(context: Context): Pc {
    match context
    case Before(event) => Handle(event)
    case After => Receive
    case Quiet => Probe
  }

  function StateAt(f: Feed, n: nat): VpnState {
    if 1 <= n <= |f.history| then MapVpnState(f.history[n - 1]) else Disconnected
  }

  /** Decide about engine state `n`: it is published unless the pump published its like last. */
  function Consider(p: Locals, f: Feed, n: nat): Locals {
    p.(considered := n, last := Some(StateAt(f, n)))
  }

  function ConsiderPublishes(p: Locals, f: Feed, n: nat): Option<VpnState> {
    if p.last == Some(StateAt(f, n)) then None else Some(StateAt(f, n))
  }

  /** Whether the handled event is a state that reaches publication. */
  predicate Publishable(cn: Conn) {
    cn.pump.pc.Handle? && cn.pump.pc.event.StateChange? && !cn.pump.backlog && cn.slot.Full?
  }

  /** What the pump's next step publishes. */
  function PumpPublishes(cn: Conn): Option<VpnState> {
    match cn.pump.pc
    case Reconcile(Snapshot, _) =>
      if cn.feed.history == [] then None
      else ConsiderPublishes(cn.pump, cn.feed, |cn.feed.history|)
    case Handle(StateChange(n)) =>
      if Publishable(cn) then ConsiderPublishes(cn.pump, cn.feed, n) else None
    case Announcing => Some(Disconnected)
    case _ => None
  }

  function ReceiveNext(cn: Conn): Conn {
    var p := cn.pump;
    if p.pending.Some? then
      cn.(pump := p.(pending := None, pc := Reconcile(Criticals, Before(p.pending.value))))
    else if !cn.slot.Full? then
      At(cn, Exited)
    else if cn.feed.queue != [] then
      cn.(feed := cn.feed.(queue := cn.feed.queue[1..]),
          pump := p.(pc := Reconcile(Criticals, Before(cn.feed.queue[0]))))
    else if cn.feed.closed then
      At(cn, Claim)
    else
      At(cn, Reconcile(Criticals, Quiet))
  }

  function ReconcileNext(cn: Conn, stage: Stage, context: Context): Conn {
    var p := cn.pump;
    match stage
    case Criticals =>
      if !cn.slot.Full? then At(cn, Resume(context))
      else if cn.feed.retained then At(cn.(feed := cn.feed.(retained := false)), Claim)
      else At(cn, Reconcile(Count, context))
    case Count =>
      var armed := p.backlog || cn.feed.drops > p.watermark;
      var mark := if cn.feed.drops > p.watermark then cn.feed.drops else p.watermark;
      cn.(pump := p.(watermark := mark, backlog := armed,
                     pc := if armed then Reconcile(Snapshot, context) else Resume(context)))
    case Snapshot =>
      if cn.feed.history == [] then At(cn, Resume(context))
      else cn.(pump := Consider(p, cn.feed, |cn.feed.history|).(pc := Resume(context)))
  }

  function HandleNext(cn: Conn, event: Event): Conn {
    match event
    case StateChange(n) =>
      if cn.pump.backlog || !cn.slot.Full? then At(cn, Receive)
      else cn.(pump := Consider(cn.pump, cn.feed, n).(pc := Reconcile(Criticals, After)))
    case CertificateFatal => At(cn, Claim)
    case OtherEvent => At(cn, Reconcile(Criticals, After))
  }

  function ProbeNext(cn: Conn): Conn {
    if !cn.slot.Full? then At(cn, Receive)
    else if cn.feed.queue != [] then
      cn.(feed := cn.feed.(queue := cn.feed.queue[1..]),
          pump := cn.pump.(pending := Some(cn.feed.queue[0]), pc := Receive))
    else if cn.feed.closed then At(cn, Receive)
    else cn.(pump := cn.pump.(backlog := false, pc := Receive))
  }

  /** One pump step. What `RetireLane` does to the lane record is the lane's business. */
  function PumpNext(cn: Conn): Conn
    requires Running(cn.pump.pc)
  {
    match cn.pump.pc
    case Receive => ReceiveNext(cn)
    case Reconcile(stage, context) => ReconcileNext(cn, stage, context)
    case Handle(event) => HandleNext(cn, event)
    case Probe => ProbeNext(cn)
    case Claim =>
      if cn.slot.Full? then At(cn.(slot := TakenByPump), Closing) else At(cn, Exited)
    case Closing => At(cn.(disconnects := cn.disconnects + 1), Announcing)
    case Announcing => At(cn, RetireLane)
    case RetireLane => At(cn, Exited)
  }

  // ---------------------------------------------------------------------------------------
  // Delivery: what the event in hand, the pending probe result and the queue carry.

  function Hand(pc: Pc): seq<Event> {
    match pc
    case Reconcile(_, Before(event)) => [event]
    case Handle(event) => [event]
    case _ => []
  }

  /** Every event that is on its way to the pump's decision, oldest first. */
  function InFlight(cn: Conn): seq<Event> {
    Hand(cn.pump.pc)
    + (if cn.pump.pending.Some? then [cn.pump.pending.value] else [])
    + cn.feed.queue
  }

  function Undelivered(cn: Conn): seq<nat> { Numbers(InFlight(cn)) }

  /** No dropped state that the pump has not reacted to, and recovery is off. */
  predicate InStep(cn: Conn) {
    !cn.pump.backlog && cn.feed.drops == cn.pump.watermark && !cn.feed.sender.CountingDrop?
  }

  /** `xs` are exactly the states after the last considered one up to `sent`. */
  ghost predicate Strict(xs: seq<nat>, considered: nat, sent: int) {
    Consecutive(xs, considered + 1) && considered + |xs| == sent
  }

  /** `xs` start with the last considered state once more. */
  ghost predicate Repeats(xs: seq<nat>, considered: nat, sent: int) {
    Consecutive(xs, considered) && considered + |xs| == sent + 1
  }

  /** A snapshot may be read between the engine recording a state and queueing it. */
  ghost predicate Exact(xs: seq<nat>, considered: nat, sent: int) {
    Strict(xs, considered, sent) || Repeats(xs, considered, sent)
  }

  /**
    What undelivered states look like: in engine order; with recovery off never older than the
    last considered one; and with no unseen drop without a gap.
   */
  ghost predicate Orderly(xs: seq<nat>, considered: nat, sent: int, backlog: bool, inStep: bool) {
    && Ascending(xs)
    && (forall i :: 0 <= i < |xs| ==> 1 <= xs[i] <= sent)
    && (!backlog ==> forall i :: 0 <= i < |xs| ==> considered <= xs[i])
    && (inStep ==> Exact(xs, considered, sent))
  }

  predicate SenderOk(f: Feed) {
    f.sender.Sending? && f.sender.event.StateChange? ==>
      f.sender.event.n == |f.history| && |f.history| >= 1
  }

  predicate LocalsOk(cn: Conn) {
    var p := cn.pump;
    && SenderOk(cn.feed)
    && p.watermark <= cn.feed.drops
    && p.considered <= |cn.feed.history|
    && p.last == (if p.considered == 0 then None else Some(StateAt(cn.feed, p.considered)))
    && (!p.pc.Receive? ==> p.pending.None?)
    && (p.pc.Reconcile? && p.pc.stage.Snapshot? ==> p.backlog)
  }

  /** At the disarming probe an empty queue proves the last snapshot current. */
  predicate ProbeOk(cn: Conn) {
    cn.pump.pc.Probe? && cn.pump.backlog && cn.feed.queue == [] ==>
      Sent(cn.feed) <= cn.pump.considered
  }

  predicate BooksOk(cn: Conn) { LocalsOk(cn) && ProbeOk(cn) }

  /** A certificate failure is in flight, retained, or still with the sender. */
  predicate FatalOnItsWay(cn: Conn) {
    || CertificateFatal in InFlight(cn)
    || cn.feed.retained
    || cn.feed.sender.RetainingFatal?
    || cn.feed.sender == Sending(CertificateFatal)
  }

  /** The pump claims only for a fatal or a dead engine, and a raised fatal is never lost. */
  predicate FatalKept(cn: Conn) {
    && (cn.feed.raised ==> FatalOnItsWay(cn) || cn.pump.pc.Claim?)
    && (FatalOnItsWay(cn) ==> cn.feed.raised)
    && (cn.pump.pc.Claim? ==> cn.feed.raised || cn.feed.closed)
  }

  ghost predicate InOrder(cn: Conn) {
    Orderly(Undelivered(cn), cn.pump.considered, Sent(cn.feed), cn.pump.backlog, InStep(cn))
  }

  /** What holds of a connection for as long as nobody has taken it from its slot. */
  ghost predicate Delivering(cn: Conn) {
    && BooksOk(cn)
    && (cn.pump.pc.Claim? || InOrder(cn))
    && FatalKept(cn)
  }

  lemma FreshDelivers()
    ensures Delivering(FRESH_CONN)
  {
    assert InFlight(FRESH_CONN) == [];
  }
}
