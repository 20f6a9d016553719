/**
  Convergence of one pump: every step it takes while the engine is quiet brings it closer to
  having decided on the engine's latest state, or to taking the connection down.
 */
module PumpConvergence {
  import opened Wrappers
  import opened Feed
  import opened Pump
  import opened PumpProofs

  /** The pump has nothing left to do for the states announced so far. */
  predicate Drained(cn: Conn) {
    cn.slot.Full? && cn.pump.pc.Receive? && InFlight(cn) == [] && InStep(cn) && cn.feed.sender.Ready?
  }

  /** Nothing retained besides, and the engine alive. */
  predicate Settled(cn: Conn) { Drained(cn) && !cn.feed.retained && !cn.feed.closed }

  /** The quiet round under way will not be the last one. */
  predicate Late(cn: Conn) {
    cn.feed.retained || cn.feed.drops != cn.pump.watermark || InFlight(cn) != []
  }

  /** How far the pump is from settling, among states with equally many events in flight. */
  function Distance(cn: Conn): nat {
    var late := Late(cn);
    match cn.pump.pc
    case Reconcile(Criticals, After) => 16
    case Reconcile(Count, After) => 15
    case Reconcile(Snapshot, After) => 14
    case Reconcile(Criticals, Quiet) => if InFlight(cn) != [] then 14 else 9
    case Reconcile(Count, Quiet) => if InFlight(cn) != [] || cn.feed.retained then 13 else 8
    case Reconcile(Snapshot, Quiet) => if late then 12 else 7
    case Probe => if late then 11 else 6
    case Receive =>
      if InFlight(cn) != [] then 10 else if cn.feed.closed then 2 else if Settled(cn) then 0 else 10
    case Reconcile(Criticals, Before(_)) => 5
    case Reconcile(Count, Before(_)) => 4
    case Reconcile(Snapshot, Before(_)) => 3
    case Handle(_) => 2
    case Claim => 1
    case _ => 0
  }

  lemma ReceiveComesCloser(cn: Conn)
    requires BooksOk(cn) && cn.slot.Full? && cn.feed.sender.Ready? && !Settled(cn) && cn.pump.pc.Receive?
    ensures var cn' := PumpNext(cn); |InFlight(cn')| <= |InFlight(cn)| && Distance(cn') < Distance(cn)
  {
    InFlightAfterReceive(cn);
  }

  lemma ReconcileComesCloser(cn: Conn)
    requires BooksOk(cn) && cn.slot.Full? && cn.feed.sender.Ready? && cn.pump.pc.Reconcile?
    ensures var cn' := PumpNext(cn); |InFlight(cn')| <= |InFlight(cn)| && Distance(cn') < Distance(cn)
  {
    if !PumpNext(cn).pump.pc.Claim? {
      InFlightAfterStep(cn);
    }
  }

  lemma ProbeComesCloser(cn: Conn)
    requires BooksOk(cn) && cn.slot.Full? && cn.feed.sender.Ready? && cn.pump.pc.Probe?
    ensures var cn' := PumpNext(cn); |InFlight(cn')| <= |InFlight(cn)| && Distance(cn') < Distance(cn)
  {
    InFlightAfterProbe(cn);
  }

  lemma HandleComesCloser(cn: Conn)
    requires BooksOk(cn) && cn.slot.Full? && cn.pump.pc.Handle?
    ensures var cn' := PumpNext(cn); |InFlight(cn')| < |InFlight(cn)|
  {
    if !PumpNext(cn).pump.pc.Claim? {
      InFlightAfterStep(cn);
    }
  }

  lemma ComesCloser(cn: Conn)
    requires Delivering(cn) && cn.slot.Full? && Looping(cn.pump.pc) && cn.feed.sender.Ready? && !Settled(cn)
    requires PumpNext(cn).slot.Full?
    ensures var cn' := PumpNext(cn);
      |InFlight(cn')| < |InFlight(cn)| || (|InFlight(cn')| == |InFlight(cn)| && Distance(cn') < Distance(cn))
  {
    match cn.pump.pc
    case Receive => ReceiveComesCloser(cn);
    case Reconcile(_, _) => ReconcileComesCloser(cn);
    case Handle(_) => HandleComesCloser(cn);
    case Probe => ProbeComesCloser(cn);
  }

  /** What the engine announced is not the pump's to change. */
  lemma StepKeepsFeedFacts(cn: Conn)
    requires cn.slot.Full? && Looping(cn.pump.pc)
    ensures var cn' := PumpNext(cn);
      && cn'.feed.history == cn.feed.history && cn'.feed.closed == cn.feed.closed
      && cn'.feed.raised == cn.feed.raised && cn'.feed.sender == cn.feed.sender
      && (cn'.slot.Full? ==> Looping(cn'.pump.pc)) && (cn'.slot.Full? || cn'.slot.TakenByPump?)
  {
  }

  /** A drained pump decided on the engine's latest state last. */
  lemma DrainedIsCurrent(cn: Conn)
    requires Delivering(cn) && Drained(cn)
    ensures cn.pump.considered == |cn.feed.history|
    ensures cn.feed.history != [] ==>
              cn.pump.last.Some? && Tells(cn.pump.last.value, cn.feed.history[|cn.feed.history| - 1])
  {
    assert Undelivered(cn) == [];
    assert Exact([], cn.pump.considered, Sent(cn.feed));
  }

  /** For a settled pump there was also nothing to claim for. */
  lemma SettledIsCurrent(cn: Conn)
    requires Delivering(cn) && Settled(cn)
    ensures !cn.feed.raised && !cn.feed.closed && cn.pump.considered == |cn.feed.history|
    ensures cn.feed.history != [] ==>
              cn.pump.last.Some? && Tells(cn.pump.last.value, cn.feed.history[|cn.feed.history| - 1])
  {
    DrainedIsCurrent(cn);
  }

  /** The pump takes the connection only for a fatal or a dead engine. */
  lemma TakenForCause(cn: Conn)
    requires Delivering(cn) && cn.slot.Full? && Looping(cn.pump.pc) && !PumpNext(cn).slot.Full?
    ensures cn.feed.raised || cn.feed.closed
    ensures PumpNext(cn).slot.TakenByPump?
  {
  }
}
