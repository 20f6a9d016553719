/**
  Progress: a call that waits is waiting for an actor that can step, and each such step lowers a
  measure that no other step raises.
 */
module LaneProgress {
  import opened Wrappers
  import opened Pump
  import opened Lane
  import opened LaneInvariant
  import opened LaneStructure

  datatype Actor = CallerOf(t: ThreadId) | PumpOf(c: ConnId)

  predicate Acts(step: Step, a: Actor) {
    match a
    case CallerOf(t) => step.Caller? && step.t == t
    case PumpOf(c) => step == PumpStep(c)
  }

  /** An actor can step; for the engine attempt, failing is always possible. */
  predicate ActorEnabled(s: State, a: Actor) {
    match a
    case CallerOf(t) => CallerEnabled(s, t, Failed)
    case PumpOf(c) => Enabled(s, PumpStep(c))
  }

  /** The longest way a caller in a window has to the end of its call. */
  function CallRank(call: Call): nat {
    match call
    case Retire(p, _) => if p.ForConnect? then 8 else if p.ForDisconnect? then 6 else 4
    case Announce(p, _, _) => if p.ForConnect? then 7 else if p.ForDisconnect? then 5 else 4
    case Close(p, _, _) => if p.ForConnect? then 6 else if p.ForDisconnect? then 4 else 3
    case Join(p, _) => if p.ForConnect? then 5 else if p.ForDisconnect? then 3 else 2
    case Recheck(_) => 4
    case Attempt(_) => 3
    case Install(_, _) => 2
    case FailPublish => 2
    case FailClear => 1
    case PublishDown => 2
    case ClearDisconnecting => 1
    case ClearDraining => 1
    case _ => 0
  }

  /** The longest way a pump whose slot was emptied has to its exit. */
  function PumpRank(p: Locals): nat {
    (if p.pending.Some? then 4 else 0)
    + match p.pc {
        case NotStarted => 0
        case Receive => 1
        case Reconcile(_, Before(_)) => 4
        case Reconcile(_, After) => 2
        case Reconcile(_, Quiet) => 3
        case Handle(_) => 3
        case Probe => 2
        case Claim => 1
        case Closing => 3
        case Announcing => 2
        case RetireLane => 1
        case Exited => 0
      }
  }

  /** The target's pump counts from the moment the slot is known to be empty. */
  function TargetRank(s: State, call: Call): nat {
    if (call.Announce? || call.Close? || call.Join?) && call.c in s.conns then PumpRank(s.conns[call.c].pump)
    else 0
  }

  const RANK_UNIT := 20

  function WindowRank(s: State, call: Call): nat { CallRank(call) * RANK_UNIT + TargetRank(s, call) }

  /** What still has to happen before a drain finds the lane free. */
  function Work(s: State, h: Option<ThreadId>): nat {
    match HolderCall(s, h)
    case Some(call) =>
      if WindowOf(call) == Some(DrainWindow) then WindowRank(s, call) else 200 + WindowRank(s, call)
    case None => if s.lane.active.Some? then 100 else 0
  }

  /** The actor a waiting call depends on. */
  function Helper(s: State, h: Option<ThreadId>, t: ThreadId): Actor {
    match HolderCall(s, h)
    case Some(call) =>
      if call.Join? && call.c in s.conns && !s.conns[call.c].pump.pc.Exited? then PumpOf(call.c)
      else CallerOf(h.value)
    case None => CallerOf(t)
  }

  /** Call `t` is past its admission: it holds the window, or it is a drain in its wait loop. */
  predicate Underway(s: State, h: Option<ThreadId>, t: ThreadId) {
    t in s.callers && (h == Some(t) || s.callers[t].DrainWait?)
  }

  /** An emptied slot's pump gets closer to its exit with every step it takes. */
  lemma PumpRankFalls(cn: Conn)
    requires Running(cn.pump.pc) && !cn.slot.Full? && !GuardHeld(cn.pump.pc)
    ensures PumpRank(PumpNext(cn).pump) < PumpRank(cn.pump)
    ensures PumpRank(cn.pump) < RANK_UNIT
    ensures !PumpNext(cn).slot.Full? && !GuardHeld(PumpNext(cn).pump.pc) && !PumpNext(cn).pump.pc.NotStarted?
  {
  }

  /** `k` steps of a pump whose slot is empty. */
  function EmptiedRun(cn: Conn, k: nat): Conn
    decreases k
  {
    if k == 0 || !Running(cn.pump.pc) then cn else EmptiedRun(PumpNext(cn), k - 1)
  }

  /** How often the pump begins an iteration of its loop in those steps. */
  function Iterations(cn: Conn, k: nat): nat
    decreases k
  {
    if k == 0 || !Running(cn.pump.pc) then 0
    else (if cn.pump.pc.Receive? then 1 else 0) + Iterations(PumpNext(cn), k - 1)
  }

  predicate Emptied(cn: Conn) { !cn.slot.Full? && !GuardHeld(cn.pump.pc) && !cn.pump.pc.NotStarted? }

  /** One iteration for an event held back, and one that finds the slot empty. */
  function IterationsLeft(p: Locals): nat {
    if p.pc.Exited? || Claimed(p.pc) || p.pc.Claim? then 0 else if p.pending.Some? then 2 else 1
  }

  lemma IterationsFall(cn: Conn)
    requires Running(cn.pump.pc) && Emptied(cn)
    ensures IterationsLeft(PumpNext(cn).pump) + (if cn.pump.pc.Receive? then 1 else 0) <= IterationsLeft(cn.pump)
    ensures Emptied(PumpNext(cn))
  {
  }

  /** However long it runs, a pump whose slot was emptied begins at most two further iterations. */
  lemma {:induction false} FewIterations(cn: Conn, k: nat)
    requires Emptied(cn)
    ensures Iterations(cn, k) <= IterationsLeft(cn.pump) <= 2
    decreases k
  {
    if k > 0 && Running(cn.pump.pc) {
      IterationsFall(cn);
      FewIterations(PumpNext(cn), k - 1);
    }
  }

  /** A pump whose slot was emptied exits on its own, after at most two further iterations. */
  lemma {:induction false} EmptiedPumpExits(cn: Conn) returns (k: nat)
    requires Emptied(cn)
    ensures k <= PumpRank(cn.pump) <= 8 && EmptiedRun(cn, k).pump.pc.Exited?
    ensures Iterations(cn, k) <= 2
    decreases PumpRank(cn.pump)
  {
    k := 0;
    if Running(cn.pump.pc) {
      PumpRankFalls(cn);
      k := EmptiedPumpExits(PumpNext(cn));
      k := k + 1;
    }
    FewIterations(cn, k);
  }

  /** Taking the connection makes its pump's way to the exit count, but not for more than the call's step. */
  lemma RetireWorks(s: State, t: ThreadId)
    requires Structure(s, Some(t)) && CallerEnabled(s, t, Failed) && s.callers[t].Retire?
    ensures t in CallerNext(s, t, Failed).callers
    ensures Work(CallerNext(s, t, Failed), Some(t)) < Work(s, Some(t))
  {
    var cn := s.conns[s.callers[t].c];
    assert ConnOk(cn, false, Some(s.callers[t]), s.callers[t].c);
  }

  lemma HolderStepWorks(s: State, t: ThreadId, outcome: Outcome)
    requires Structure(s, Some(t)) && CallerEnabled(s, t, outcome)
    ensures var s' := CallerNext(s, t, outcome);
      t in s'.callers ==> Work(s', Some(t)) < Work(s, Some(t))
    ensures var s' := CallerNext(s, t, outcome);
      t !in s'.callers && s.draining ==> Work(s', None) < Work(s, Some(t))
  {
    assert WindowOf(s.callers[t]).Some?;
    assert Drainer(s.callers[t]) ==> s.draining;
    if s.callers[t].Retire? {
      RetireWorks(s, t);
    }
  }

  /** A caller that holds nothing lowers the work or leaves it alone. */
  lemma OtherCallerWorks(s: State, h: Option<ThreadId>, t: ThreadId, outcome: Outcome)
    requires Structure(s, h) && CallerEnabled(s, t, outcome) && h != Some(t)
    requires s.draining || h.Some?
    ensures var s' := CallerNext(s, t, outcome);
      var h' := NextHolder(h, s', Caller(t, outcome));
      && Work(s', h') <= Work(s, h)
      && (Work(s', h') == Work(s, h) ==> h' == h && HolderCall(s', h') == HolderCall(s, h))
      && s'.conns == s.conns
      && (s.callers[t].DrainWait? && t in s'.callers ==> Work(s', h') < Work(s, h) && h' == Some(t))
  {
    assert Entering(s.callers[t]);
  }

  lemma PumpWorks(s: State, h: Option<ThreadId>, c: ConnId)
    requires Structure(s, h) && Enabled(s, PumpStep(c))
    ensures var s' := Next(s, PumpStep(c));
      && Work(s', h) <= Work(s, h)
      && HolderCall(s', h) == HolderCall(s, h)
      && (forall t :: Helper(s, h, t) == PumpOf(c) ==> Work(s', h) < Work(s, h))
  {
    var cn := s.conns[c];
    assert ConnOk(cn, s.lane.active == Some(c), HolderCall(s, h), c);
    if !cn.slot.Full? {
      PumpRankFalls(cn);
    }
  }

  /**
    What a step does for call `t`: it ends that call, or leaves it under way and does not raise
    the work; it lowers the work if it is the helper's, and otherwise keeps the same helper.
   */
  predicate WorksFor(s: State, h: Option<ThreadId>, step: Step, s': State, h': Option<ThreadId>, t: ThreadId) {
    || t !in s'.callers
    || (&& Underway(s', h', t)
        && Work(s', h') <= Work(s, h)
        && (Acts(step, Helper(s, h, t)) ==> Work(s', h') < Work(s, h))
        && (Work(s', h') == Work(s, h) ==>
              Helper(s', h', t) == Helper(s, h, t) && HolderCall(s', h') == HolderCall(s, h)))
  }

  lemma HolderStepWorksFor(s: State, h: Option<ThreadId>, u: ThreadId, outcome: Outcome, t: ThreadId)
    requires Structure(s, h) && CallerEnabled(s, u, outcome) && Underway(s, h, t) && h == Some(u)
    ensures var s' := CallerNext(s, u, outcome);
      WorksFor(s, h, Caller(u, outcome), s', NextHolder(h, s', Caller(u, outcome)), t)
  {
    HolderStepWorks(s, u, outcome);
    CallerKeepsStructure(s, h, u, outcome);
    assert Drainer(s.callers[t]) && t != u ==> s.draining;
  }

  lemma OtherCallerWorksFor(s: State, h: Option<ThreadId>, u: ThreadId, outcome: Outcome, t: ThreadId)
    requires Structure(s, h) && CallerEnabled(s, u, outcome) && Underway(s, h, t) && h != Some(u) && u != t
    ensures var s' := CallerNext(s, u, outcome);
      WorksFor(s, h, Caller(u, outcome), s', NextHolder(h, s', Caller(u, outcome)), t)
  {
    assert Drainer(s.callers[t]) ==> s.draining;
    OtherCallerWorks(s, h, u, outcome);
    OthersUntouched(s, u, outcome, t);
  }

  lemma WaitingDrainWorks(s: State, h: Option<ThreadId>, outcome: Outcome, t: ThreadId)
    requires Structure(s, h) && CallerEnabled(s, t, outcome) && Underway(s, h, t) && h != Some(t)
    ensures var s' := CallerNext(s, t, outcome);
      WorksFor(s, h, Caller(t, outcome), s', NextHolder(h, s', Caller(t, outcome)), t)
  {
    assert Drainer(s.callers[t]) ==> s.draining;
    OtherCallerWorks(s, h, t, outcome);
  }

  lemma OthersUntouched(s: State, u: ThreadId, outcome: Outcome, t: ThreadId)
    requires CallerEnabled(s, u, outcome) && t in s.callers && t != u
    ensures t in CallerNext(s, u, outcome).callers && CallerNext(s, u, outcome).callers[t] == s.callers[t]
  {
  }

  lemma PumpWorksFor(s: State, h: Option<ThreadId>, c: ConnId, t: ThreadId)
    requires Structure(s, h) && Enabled(s, PumpStep(c)) && Underway(s, h, t)
    ensures WorksFor(s, h, PumpStep(c), Next(s, PumpStep(c)), h, t)
  {
    PumpWorks(s, h, c);
  }

  lemma StepWorks(s: State, h: Option<ThreadId>, step: Step, t: ThreadId)
    requires Structure(s, h) && Enabled(s, step) && Underway(s, h, t)
    ensures WorksFor(s, h, step, Next(s, step), NextHolder(h, Next(s, step), step), t)
  {
    match step
    case Begin(u, call) => assert h != Some(u);
    case Caller(u, outcome) =>
      if h == Some(u) {
        HolderStepWorksFor(s, h, u, outcome, t);
      } else if u == t {
        WaitingDrainWorks(s, h, outcome, t);
      } else {
        OtherCallerWorksFor(s, h, u, outcome, t);
      }
    case PumpStep(c) => PumpWorksFor(s, h, c, t);
    case EngineStep(_, _) =>
  }

  /** The holder is waiting for the slot guard of its target. */
  predicate AtGuard(s: State, h: Option<ThreadId>) {
    HolderCall(s, h).Some? && HolderCall(s, h).value.Retire? && HolderCall(s, h).value.c in s.conns
    && GuardHeld(s.conns[HolderCall(s, h).value.c].pump.pc)
  }

  /** No deadlock: the helper can step, or the pump it waits for is inside its slot guard and can. */
  lemma HelperCanStep(s: State, h: Option<ThreadId>, t: ThreadId)
    requires Structure(s, h) && Underway(s, h, t)
    ensures AtGuard(s, h) || ActorEnabled(s, Helper(s, h, t))
    ensures AtGuard(s, h) ==> ActorEnabled(s, PumpOf(HolderCall(s, h).value.c))
  {
    if HolderCall(s, h).Some? {
      var call := HolderCall(s, h).value;
      if call.Join? {
        assert ConnOk(s.conns[call.c], false, Some(call), call.c);
      }
    }
  }
}
