/**
  The connection lane: any number of connect, disconnect and drain calls, one pump thread per
  connection and the engine threads, all interleaved.

  One step is one critical section, one publication, one engine attempt or one join. A caller is
  a program counter with its locals; a finished call leaves the table of callers.
 */
module Lane {
  import opened Wrappers
  import opened Feed
  import opened Pump

  type Uid = nat
  type ConnId = nat
  type ThreadId = nat

  /** The record behind the lane mutex. */
  datatype LaneState = LaneState(
    active: Option<ConnId>,
    owner: Option<Uid>,
    reconnecting: bool,
    disconnecting: bool,
    drainInProgress: bool)

  const EMPTY_LANE := LaneState(None, None, false, false, false)

  datatype Refusal = NotOwner(owner: Uid) | DaemonDraining | Reconnecting | DisconnectRunning

  function GateOwner(current: Option<Uid>, requester: Uid): Option<Refusal> {
    if current.Some? && current.value != requester then Some(NotOwner(current.value)) else None
  }

  predicate DrainWaits(lane: LaneState) {
    lane.drainInProgress || lane.reconnecting || lane.disconnecting
  }

  /** The connect admission: the owner gate, then the drain, then the two user windows. */
  function ConnectRefusal(lane: LaneState, draining: bool, uid: Uid): Option<Refusal> {
    if GateOwner(lane.owner, uid).Some? then GateOwner(lane.owner, uid)
    else if draining then Some(DaemonDraining)
    else if lane.reconnecting then Some(Reconnecting)
    else if lane.disconnecting then Some(DisconnectRunning)
    else None
  }

  /** The disconnect admission: the windows first, then the owner gate. */
  function DisconnectRefusal(lane: LaneState, draining: bool, uid: Uid): Option<Refusal> {
    if draining then Some(DaemonDraining)
    else if lane.reconnecting then Some(Reconnecting)
    else if lane.disconnecting then Some(DisconnectRunning)
    else GateOwner(lane.owner, uid)
  }

  // The lane record after each critical section.

  function TakenForConnect(lane: LaneState): LaneState {
    lane.(reconnecting := true, active := None, owner := None)
  }

  function TakenForDisconnect(lane: LaneState): LaneState {
    lane.(disconnecting := lane.disconnecting || lane.active.Some?, active := None, owner := None)
  }

  function TakenForDrain(lane: LaneState): LaneState {
    lane.(drainInProgress := lane.drainInProgress || lane.active.Some?, active := None, owner := None)
  }

  function Installed(lane: LaneState, c: ConnId, uid: Uid): LaneState {
    lane.(active := Some(c), owner := Some(uid), reconnecting := false)
  }

  function RetiredByPump(lane: LaneState, c: ConnId): LaneState {
    if lane.active == Some(c) then lane.(active := None, owner := None) else lane
  }

  // ---------------------------------------------------------------------------------------
  // Callers

  datatype Purpose = ForConnect(uid: Uid) | ForDisconnect | ForDrain

  datatype Call =
    | ConnectAdmit(uid: Uid)
    | DisconnectAdmit(uid: Uid)
    | DrainFlag
    | DrainWait
    | Retire(purpose: Purpose, c: ConnId)
    | Announce(purpose: Purpose, c: ConnId, won: bool)
    | Close(purpose: Purpose, c: ConnId, won: bool)
    | Join(purpose: Purpose, c: ConnId)
    | Recheck(uid: Uid)
    | Attempt(uid: Uid)
    | Install(uid: Uid, c: ConnId)
    | FailPublish
    | FailClear
    | PublishDown
    | ClearDisconnecting
    | ClearDraining

  predicate Entry(call: Call) { call.ConnectAdmit? || call.DisconnectAdmit? || call.DrainFlag? }

  datatype State = State(
    lane: LaneState,
    draining: bool,
    published: VpnState,
    conns: map<ConnId, Conn>,
    callers: map<ThreadId, Call>)

  ghost predicate Init(s: State) {
    s.lane == EMPTY_LANE && !s.draining && s.published == Disconnected && s.conns == map[] && s.callers == map[]
  }

  /** The engine attempt's result; every other caller step ignores it. */
  datatype Outcome = Started(c: ConnId) | Failed

  datatype Step =
    | Begin(t: ThreadId, call: Call)
    | Caller(t: ThreadId, outcome: Outcome)
    | PumpStep(c: ConnId)
    | EngineStep(c: ConnId, feedStep: FeedStep)

  function Moved(s: State, t: ThreadId, call: Call): State { s.(callers := s.callers[t := call]) }

  function Finished(s: State, t: ThreadId): State { s.(callers := s.callers - {t}) }

  predicate CallerEnabled(s: State, t: ThreadId, outcome: Outcome) {
    && t in s.callers
    && match s.callers[t] {
         case DrainWait => !DrainWaits(s.lane)
         case Retire(_, c) => c in s.conns && !GuardHeld(s.conns[c].pump.pc)
         case Close(_, c, _) => c in s.conns
         case Join(_, c) => c in s.conns && s.conns[c].pump.pc.Exited?
         case Attempt(_) => outcome.Started? ==> outcome.c !in s.conns
         case Install(_, c) => c in s.conns
         case _ => true
       }
  }

  function RetireNext(s: State, t: ThreadId, purpose: Purpose, c: ConnId): State
    requires c in s.conns
  {
    var won := s.conns[c].slot.Full?;
    var s' := if won then s.(conns := s.conns[c := s.conns[c].(slot := TakenByTeardown)]) else s;
    Moved(s', t, if purpose.ForDrain? then Close(purpose, c, won) else Announce(purpose, c, won))
  }

  function CloseNext(s: State, t: ThreadId, purpose: Purpose, c: ConnId, won: bool): State
    requires c in s.conns
  {
    var cn := s.conns[c];
    var s' := if won then s.(conns := s.conns[c := cn.(disconnects := cn.disconnects + 1)]) else s;
    Moved(s', t, Join(purpose, c))
  }

  function AfterJoin(purpose: Purpose): Call {
    match purpose
    case ForConnect(uid) => Recheck(uid)
    case ForDisconnect => PublishDown
    case ForDrain => ClearDraining
  }

  function ConnectAdmitNext(s: State, t: ThreadId, uid: Uid): State {
    if ConnectRefusal(s.lane, s.draining, uid).Some? then Finished(s, t)
    else
      Moved(s.(lane := TakenForConnect(s.lane)), t,
            if s.lane.active.Some? then Retire(ForConnect(uid), s.lane.active.value) else Recheck(uid))
  }

  function DisconnectAdmitNext(s: State, t: ThreadId, uid: Uid): State {
    if DisconnectRefusal(s.lane, s.draining, uid).Some? then Finished(s, t)
    else if s.lane.active.Some? then
      Moved(s.(lane := TakenForDisconnect(s.lane)), t, Retire(ForDisconnect, s.lane.active.value))
    else
      Finished(s.(lane := TakenForDisconnect(s.lane)), t)
  }

  function DrainWaitNext(s: State, t: ThreadId): State {
    if s.lane.active.Some? then
      Moved(s.(lane := TakenForDrain(s.lane)), t, Retire(ForDrain, s.lane.active.value))
    else
      Finished(s.(lane := TakenForDrain(s.lane)), t)
  }

  function InstallNext(s: State, t: ThreadId, uid: Uid, c: ConnId): State
    requires c in s.conns
  {
    Finished(s.(lane := Installed(s.lane, c, uid),
                conns := s.conns[c := At(s.conns[c].(slot := Full), Receive)]), t)
  }

  function CallerNext(s: State, t: ThreadId, outcome: Outcome): State
    requires CallerEnabled(s, t, outcome)
  {
    match s.callers[t]
    case ConnectAdmit(uid) => ConnectAdmitNext(s, t, uid)
    case DisconnectAdmit(uid) => DisconnectAdmitNext(s, t, uid)
    case DrainFlag => Moved(s.(draining := true), t, DrainWait)
    case DrainWait => DrainWaitNext(s, t)
    case Retire(purpose, c) => RetireNext(s, t, purpose, c)
    case Announce(purpose, c, won) => Moved(s.(published := Disconnecting), t, Close(purpose, c, won))
    case Close(purpose, c, won) => CloseNext(s, t, purpose, c, won)
    case Join(purpose, c) => Moved(s, t, AfterJoin(purpose))
    case Recheck(uid) =>
      if s.draining then Finished(s.(lane := s.lane.(reconnecting := false)), t)
      else Moved(s.(lane := s.lane.(owner := None)), t, Attempt(uid))
    case Attempt(uid) =>
      if outcome.Started? then
        Moved(s.(conns := s.conns[outcome.c := FRESH_CONN]), t, Install(uid, outcome.c))
      else
        Moved(s, t, FailPublish)
    case Install(uid, c) => InstallNext(s, t, uid, c)
    case FailPublish => Moved(s.(published := Disconnected), t, FailClear)
    case FailClear => Finished(s.(lane := s.lane.(reconnecting := false)), t)
    case PublishDown => Moved(s.(published := Disconnected), t, ClearDisconnecting)
    case ClearDisconnecting => Finished(s.(lane := s.lane.(disconnecting := false)), t)
    case ClearDraining => Finished(s.(lane := s.lane.(drainInProgress := false)), t)
  }

  function PumpStepNext(s: State, c: ConnId): State
    requires c in s.conns && Running(s.conns[c].pump.pc)
  {
    var cn := s.conns[c];
    s.(conns := s.conns[c := PumpNext(cn)],
       published := if PumpPublishes(cn).Some? then PumpPublishes(cn).value else s.published,
       lane := if cn.pump.pc.RetireLane? then RetiredByPump(s.lane, c) else s.lane)
  }

  predicate Enabled(s: State, step: Step) {
    match step
    case Begin(t, call) => t !in s.callers && Entry(call)
    case Caller(t, outcome) => CallerEnabled(s, t, outcome)
    case PumpStep(c) => c in s.conns && Running(s.conns[c].pump.pc)
    case EngineStep(c, feedStep) => c in s.conns && FeedEnabled(s.conns[c].feed, feedStep)
  }

  function Next(s: State, step: Step): State
    requires Enabled(s, step)
  {
    match step
    case Begin(t, call) => Moved(s, t, call)
    case Caller(t, outcome) => CallerNext(s, t, outcome)
    case PumpStep(c) => PumpStepNext(s, c)
    case EngineStep(c, feedStep) =>
      s.(conns := s.conns[c := s.conns[c].(feed := FeedNext(s.conns[c].feed, feedStep))])
  }

  // ---------------------------------------------------------------------------------------
  // Runs

  datatype Run = Run(states: seq<State>, steps: seq<Step>)

  /** Step `i` can be taken where it is, and leads to the next state. */
  ghost predicate StepAt(r: Run, i: nat) {
    && i < |r.steps| && i + 1 < |r.states|
    && Enabled(r.states[i], r.steps[i])
    && r.states[i + 1] == Next(r.states[i], r.steps[i])
  }

  ghost predicate ValidRun(r: Run) {
    && |r.states| == |r.steps| + 1
    && Init(r.states[0])
    && forall i {:trigger StepAt(r, i)} :: 0 <= i < |r.steps| ==> StepAt(r, i)
  }

  function Last(r: Run): State
    requires r.states != []
  {
    r.states[|r.states| - 1]
  }

  /** A run goes on by any step that is enabled where it ends. */
  lemma Play(r: Run, step: Step) returns (r': Run)
    requires ValidRun(r) && Enabled(Last(r), step)
    ensures ValidRun(r') && Last(r') == Next(Last(r), step)
    ensures r' == Run(r.states + [Next(Last(r), step)], r.steps + [step])
  {
    r' := Run(r.states + [Next(Last(r), step)], r.steps + [step]);
    forall i | 0 <= i < |r'.steps| ensures StepAt(r', i) {
      if i < |r.steps| {
        assert StepAt(r, i);
      }
    }
  }
}
