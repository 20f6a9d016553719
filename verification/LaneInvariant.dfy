/**
  The lane's invariant: who holds the window, where each connection is, and what is published.

  It is stated relative to the holder of the window, the one caller (if any) inside a call that
  armed one of the three flags.
 */
module LaneInvariant {
  import opened Wrappers
  import opened Feed
  import opened Pump
  import opened Lane

  datatype Window = ReconnectWindow | DisconnectWindow | DrainWindow

  function WindowOf(call: Call): Option<Window> {
    match call
    case Retire(p, _) => Some(PurposeWindow(p))
    case Announce(p, _, _) => Some(PurposeWindow(p))
    case Close(p, _, _) => Some(PurposeWindow(p))
    case Join(p, _) => Some(PurposeWindow(p))
    case Recheck(_) => Some(ReconnectWindow)
    case Attempt(_) => Some(ReconnectWindow)
    case Install(_, _) => Some(ReconnectWindow)
    case FailPublish => Some(ReconnectWindow)
    case FailClear => Some(ReconnectWindow)
    case PublishDown => Some(DisconnectWindow)
    case ClearDisconnecting => Some(DisconnectWindow)
    case ClearDraining => Some(DrainWindow)
    case _ => None
  }

  function PurposeWindow(p: Purpose): Window {
    match p
    case ForConnect(_) => ReconnectWindow
    case ForDisconnect => DisconnectWindow
    case ForDrain => DrainWindow
  }

  predicate FlagSet(lane: LaneState, w: Window) {
    match w
    case ReconnectWindow => lane.reconnecting
    case DisconnectWindow => lane.disconnecting
    case DrainWindow => lane.drainInProgress
  }

  /** The connection a call is tearing down or about to install. */
  function Target(call: Call): Option<ConnId> {
    match call
    case Retire(_, c) => Some(c)
    case Announce(_, c, _) => Some(c)
    case Close(_, c, _) => Some(c)
    case Join(_, c) => Some(c)
    case Install(_, c) => Some(c)
    case _ => None
  }

  predicate Drainer(call: Call) {
    call.DrainWait? || WindowOf(call) == Some(DrainWindow)
  }

  /** The flags are exactly those of the holder's window. */
  predicate FlagsOk(s: State, h: Option<ThreadId>) {
    var w := if h.Some? && h.value in s.callers then WindowOf(s.callers[h.value]) else None;
    && (h.Some? ==> w.Some?)
    && s.lane.reconnecting == (w == Some(ReconnectWindow))
    && s.lane.disconnecting == (w == Some(DisconnectWindow))
    && s.lane.drainInProgress == (w == Some(DrainWindow))
  }

  predicate OwnerOk(s: State, h: Option<ThreadId>) {
    && s.lane.owner.Some? == s.lane.active.Some?
    && (h.Some? ==> s.lane.active.None?)
  }

  ghost predicate CallersOk(s: State, h: Option<ThreadId>) {
    forall t :: t in s.callers ==>
      && (WindowOf(s.callers[t]).Some? ==> h == Some(t))
      && (Drainer(s.callers[t]) ==> s.draining)
  }

  /** What the holder, at its program counter, knows of the connection it handles. */
  predicate HolderOk(s: State, call: Call) {
    match call
    case Retire(_, c) => c in s.conns && (s.conns[c].slot.Full? || s.conns[c].slot.TakenByPump?)
    case Announce(_, c, won) => c in s.conns && HandledOk(s.conns[c], won)
    case Close(_, c, won) => c in s.conns && HandledOk(s.conns[c], won)
    case Join(_, c) =>
      c in s.conns && (s.conns[c].slot.TakenByPump? || (s.conns[c].slot.TakenByTeardown? && !Live(s.conns[c])))
    case Install(_, c) => c in s.conns && s.conns[c].slot.NotYet?
    case _ => true
  }

  predicate HandledOk(cn: Conn, won: bool) {
    if won then cn.slot.TakenByTeardown? && Live(cn) else cn.slot.TakenByPump?
  }

  predicate ActiveOk(s: State) {
    s.lane.active.Some? ==>
      && s.lane.active.value in s.conns
      && (s.conns[s.lane.active.value].slot.Full? || s.conns[s.lane.active.value].slot.TakenByPump?)
      && Running(s.conns[s.lane.active.value].pump.pc)
  }

  function HolderCall(s: State, h: Option<ThreadId>): Option<Call> {
    if h.Some? && h.value in s.callers then Some(s.callers[h.value]) else None
  }

  /** The connection is the installed one, or the one the window's holder handles. */
  predicate Held(s: State, h: Option<ThreadId>, c: ConnId) {
    s.lane.active == Some(c) || (HolderCall(s, h).Some? && Target(HolderCall(s, h).value) == Some(c))
  }

  /** Where a connection is, by who took it from its slot. */
  predicate ConnOk(cn: Conn, active: bool, call: Option<Call>, c: ConnId) {
    var targeted := call.Some? && Target(call.value) == Some(c);
    match cn.slot
    case NotYet => Live(cn) && cn.pump.pc.NotStarted? && targeted && call.value.Install?
    case Full => Live(cn) && Looping(cn.pump.pc) && (active || (targeted && call.value.Retire?))
    case TakenByTeardown =>
      && (Looping(cn.pump.pc) || cn.pump.pc.Exited?)
      && !GuardHeld(cn.pump.pc)
      && cn.disconnects <= 1
      && (Live(cn) ==> targeted && ((call.value.Announce? && call.value.won) || (call.value.Close? && call.value.won)))
      && (!cn.pump.pc.Exited? ==> targeted)
    case TakenByPump =>
      && (Claimed(cn.pump.pc) || cn.pump.pc.Exited?)
      && cn.disconnects == (if cn.pump.pc.Closing? then 0 else 1)
      && (!cn.pump.pc.Exited? ==> active || targeted)
  }

  ghost predicate ConnsOk(s: State, h: Option<ThreadId>) {
    forall c :: c in s.conns ==> ConnOk(s.conns[c], s.lane.active == Some(c), HolderCall(s, h), c)
  }

  /** The structural invariant. */
  ghost predicate Structure(s: State, h: Option<ThreadId>) {
    && FlagsOk(s, h)
    && OwnerOk(s, h)
    && CallersOk(s, h)
    && ActiveOk(s)
    && (HolderCall(s, h).Some? ==> HolderOk(s, HolderCall(s, h).value))
    && ConnsOk(s, h)
  }

  /** Deliveries of a connection nobody has taken, and what they have published. */
  ghost predicate DeliveryOk(s: State) {
    forall c :: c in s.conns && (s.conns[c].slot.NotYet? || s.conns[c].slot.Full?) ==>
      && Delivering(s.conns[c])
      && (s.conns[c].slot.NotYet? ==> s.conns[c].pump.last.None?)
      && (s.conns[c].pump.last.Some? ==> s.published == s.conns[c].pump.last.value)
  }

  /** What is published when the lane is, or is about to be, idle. */
  ghost predicate IdleOk(s: State, h: Option<ThreadId>) {
    && (!s.draining && h.None? && s.lane.active.None? ==> s.published == Disconnected)
    && (HolderCall(s, h) == Some(FailClear) ==> s.published == Disconnected)
    && (HolderCall(s, h) == Some(ClearDisconnecting) ==> s.published == Disconnected)
    && (forall c :: c in s.conns && s.lane.active == Some(c) && s.conns[c].pump.pc.RetireLane? ==>
          s.published == Disconnected)
  }

  /** A call that took a live connection has announced the transition before it closes it. */
  predicate Announced(s: State, call: Call) {
    match call
    case Close(p, _, won) => !p.ForDrain? && won
    case Join(p, c) => !p.ForDrain? && c in s.conns && s.conns[c].slot.TakenByTeardown?
    case _ => false
  }

  predicate TransitionOk(s: State, h: Option<ThreadId>) {
    HolderCall(s, h).Some? && Announced(s, HolderCall(s, h).value) ==> s.published == Disconnecting
  }

  ghost predicate Inv(s: State, h: Option<ThreadId>) {
    Structure(s, h) && DeliveryOk(s) && IdleOk(s, h) && TransitionOk(s, h)
  }

  /** The holder after a step: a caller holds the window from arming to clearing its flag. */
  function NextHolder(h: Option<ThreadId>, s': State, step: Step): Option<ThreadId> {
    if !step.Caller? then h
    else if step.t in s'.callers && WindowOf(s'.callers[step.t]).Some? then Some(step.t)
    else if h == Some(step.t) then None
    else h
  }
}
