/** Every step keeps the structural invariant. */
module LaneStructure {
  import opened Wrappers
  import opened Feed
  import opened Pump
  import opened Lane
  import opened LaneInvariant

  lemma InitStructure(s: State)
    requires Init(s)
    ensures Structure(s, None)
  {
  }

  lemma BeginKeepsStructure(s: State, h: Option<ThreadId>, t: ThreadId, call: Call)
    requires Structure(s, h) && Enabled(s, Begin(t, call))
    ensures Structure(Next(s, Begin(t, call)), h)
  {
    assert h != Some(t);
  }

  /** The structure does not depend on what the engine has announced. */
  lemma FeedIrrelevant(s: State, h: Option<ThreadId>, c: ConnId, feed: Feed)
    requires Structure(s, h) && c in s.conns
    ensures Structure(s.(conns := s.conns[c := s.conns[c].(feed := feed)]), h)
  {
  }

  /** What a pump step does to its own connection, seen from the lane. */
  lemma PumpKeepsConn(cn: Conn, active: bool, call: Option<Call>, c: ConnId)
    requires ConnOk(cn, active, call, c) && Running(cn.pump.pc)
    ensures ConnOk(PumpNext(cn), active && !cn.pump.pc.RetireLane?, call, c)
    ensures active && !cn.pump.pc.RetireLane? && (cn.slot.Full? || cn.slot.TakenByPump?) ==>
              Running(PumpNext(cn).pump.pc)
    ensures PumpNext(cn).slot == cn.slot || (cn.slot.Full? && PumpNext(cn).slot.TakenByPump?)
    ensures cn.slot.TakenByTeardown? ==> PumpNext(cn).disconnects == cn.disconnects
  {
  }

  lemma PumpKeepsStructure(s: State, h: Option<ThreadId>, c: ConnId)
    requires Structure(s, h) && Enabled(s, PumpStep(c))
    ensures Structure(Next(s, PumpStep(c)), h)
  {
    PumpKeepsConn(s.conns[c], s.lane.active == Some(c), HolderCall(s, h), c);
  }

  lemma ConnectAdmitKeepsStructure(s: State, h: Option<ThreadId>, t: ThreadId, uid: Uid)
    requires Structure(s, h) && t in s.callers && s.callers[t] == ConnectAdmit(uid)
    ensures var s' := ConnectAdmitNext(s, t, uid); Structure(s', NextHolder(h, s', Caller(t, Failed)))
  {
    assert h != Some(t);
  }

  lemma DisconnectAdmitKeepsStructure(s: State, h: Option<ThreadId>, t: ThreadId, uid: Uid)
    requires Structure(s, h) && t in s.callers && s.callers[t] == DisconnectAdmit(uid)
    ensures var s' := DisconnectAdmitNext(s, t, uid); Structure(s', NextHolder(h, s', Caller(t, Failed)))
  {
    assert h != Some(t);
  }

  lemma DrainKeepsStructure(s: State, h: Option<ThreadId>, t: ThreadId)
    requires Structure(s, h) && CallerEnabled(s, t, Failed)
    requires s.callers[t].DrainFlag? || s.callers[t].DrainWait?
    ensures var s' := CallerNext(s, t, Failed); Structure(s', NextHolder(h, s', Caller(t, Failed)))
  {
    assert h != Some(t);
  }

  lemma RetiredConn(cn: Conn, purpose: Purpose, c: ConnId)
    requires ConnOk(cn, false, Some(Retire(purpose, c)), c) && !GuardHeld(cn.pump.pc)
    ensures var won := cn.slot.Full?;
      var cn' := if won then cn.(slot := TakenByTeardown) else cn;
      var call := if purpose.ForDrain? then Close(purpose, c, won) else Announce(purpose, c, won);
      ConnOk(cn', false, Some(call), c)
  {
  }

  lemma RetireKeepsStructure(s: State, h: Option<ThreadId>, t: ThreadId, purpose: Purpose, c: ConnId)
    requires Structure(s, h) && CallerEnabled(s, t, Failed) && s.callers[t] == Retire(purpose, c)
    ensures h == Some(t) && Structure(RetireNext(s, t, purpose, c), h)
  {
    assert WindowOf(s.callers[t]).Some?;
    RetiredConn(s.conns[c], purpose, c);
  }

  lemma CloseKeepsStructure(s: State, h: Option<ThreadId>, t: ThreadId, purpose: Purpose, c: ConnId, won: bool)
    requires Structure(s, h) && CallerEnabled(s, t, Failed) && s.callers[t] == Close(purpose, c, won)
    ensures h == Some(t) && Structure(CloseNext(s, t, purpose, c, won), h)
  {
    assert WindowOf(s.callers[t]).Some?;
  }

  lemma TeardownKeepsStructure(s: State, h: Option<ThreadId>, t: ThreadId)
    requires Structure(s, h) && CallerEnabled(s, t, Failed)
    requires s.callers[t].Announce? || s.callers[t].Join?
    ensures h == Some(t) && Structure(CallerNext(s, t, Failed), h)
  {
    assert WindowOf(s.callers[t]).Some?;
  }

  lemma AttemptKeepsStructure(s: State, h: Option<ThreadId>, t: ThreadId, outcome: Outcome)
    requires Structure(s, h) && CallerEnabled(s, t, outcome)
    requires s.callers[t].Attempt?
    ensures h == Some(t) && Structure(CallerNext(s, t, outcome), h)
  {
    assert WindowOf(s.callers[t]).Some?;
  }

  lemma InstallKeepsStructure(s: State, h: Option<ThreadId>, t: ThreadId, uid: Uid, c: ConnId)
    requires Structure(s, h) && CallerEnabled(s, t, Failed) && s.callers[t] == Install(uid, c)
    ensures h == Some(t) && Structure(InstallNext(s, t, uid, c), None)
  {
    assert WindowOf(s.callers[t]).Some?;
  }

  lemma PublishKeepsStructure(s: State, h: Option<ThreadId>, t: ThreadId)
    requires Structure(s, h) && CallerEnabled(s, t, Failed)
    requires s.callers[t].FailPublish? || s.callers[t].PublishDown?
    ensures h == Some(t) && Structure(CallerNext(s, t, Failed), h)
  {
    assert WindowOf(s.callers[t]).Some?;
  }

  lemma ClearKeepsStructure(s: State, h: Option<ThreadId>, t: ThreadId)
    requires Structure(s, h) && CallerEnabled(s, t, Failed)
    requires s.callers[t].FailClear? || s.callers[t].ClearDisconnecting? || s.callers[t].ClearDraining?
    ensures h == Some(t) && Structure(CallerNext(s, t, Failed), None)
  {
    assert WindowOf(s.callers[t]).Some?;
  }

  lemma RecheckKeepsStructure(s: State, h: Option<ThreadId>, t: ThreadId)
    requires Structure(s, h) && CallerEnabled(s, t, Failed) && s.callers[t].Recheck?
    ensures h == Some(t)
    ensures Structure(CallerNext(s, t, Failed), if s.draining then None else h)
  {
    assert WindowOf(s.callers[t]).Some?;
  }

  /** Teardown, from the take to the join. */
  predicate TearingDown(call: Call) { call.Retire? || call.Announce? || call.Close? || call.Join? }

  lemma TearingDownKeepsStructure(s: State, h: Option<ThreadId>, t: ThreadId)
    requires Structure(s, h) && CallerEnabled(s, t, Failed) && TearingDown(s.callers[t])
    ensures h == Some(t) && Structure(CallerNext(s, t, Failed), h)
  {
    match s.callers[t]
    case Retire(purpose, c) => RetireKeepsStructure(s, h, t, purpose, c);
    case Announce(_, _, _) => TeardownKeepsStructure(s, h, t);
    case Close(purpose, c, won) => CloseKeepsStructure(s, h, t, purpose, c, won);
    case Join(_, _) => TeardownKeepsStructure(s, h, t);
  }

  predicate Entering(call: Call) { Entry(call) || call.DrainWait? }

  lemma EnteringKeepsStructure(s: State, h: Option<ThreadId>, t: ThreadId)
    requires Structure(s, h) && CallerEnabled(s, t, Failed) && Entering(s.callers[t])
    ensures var s' := CallerNext(s, t, Failed); Structure(s', NextHolder(h, s', Caller(t, Failed)))
  {
    match s.callers[t]
    case ConnectAdmit(uid) => ConnectAdmitKeepsStructure(s, h, t, uid);
    case DisconnectAdmit(uid) => DisconnectAdmitKeepsStructure(s, h, t, uid);
    case DrainFlag => DrainKeepsStructure(s, h, t);
    case DrainWait => DrainKeepsStructure(s, h, t);
  }

  lemma LeavingKeepsStructure(s: State, h: Option<ThreadId>, t: ThreadId, outcome: Outcome)
    requires Structure(s, h) && CallerEnabled(s, t, outcome)
    requires !TearingDown(s.callers[t]) && !Entering(s.callers[t])
    ensures h == Some(t)
    ensures var s' := CallerNext(s, t, outcome); Structure(s', if t in s'.callers then h else None)
  {
    match s.callers[t]
    case Recheck(_) => RecheckKeepsStructure(s, h, t);
    case Attempt(_) => AttemptKeepsStructure(s, h, t, outcome);
    case Install(uid, c) => InstallKeepsStructure(s, h, t, uid, c);
    case FailPublish => PublishKeepsStructure(s, h, t);
    case FailClear => ClearKeepsStructure(s, h, t);
    case PublishDown => PublishKeepsStructure(s, h, t);
    case ClearDisconnecting => ClearKeepsStructure(s, h, t);
    case ClearDraining => ClearKeepsStructure(s, h, t);
  }

  lemma CallerKeepsStructure(s: State, h: Option<ThreadId>, t: ThreadId, outcome: Outcome)
    requires Structure(s, h) && CallerEnabled(s, t, outcome)
    ensures var s' := CallerNext(s, t, outcome); Structure(s', NextHolder(h, s', Caller(t, outcome)))
  {
    if TearingDown(s.callers[t]) {
      TearingDownKeepsStructure(s, h, t);
    } else if Entering(s.callers[t]) {
      EnteringKeepsStructure(s, h, t);
    } else {
      LeavingKeepsStructure(s, h, t, outcome);
    }
  }

  lemma StepKeepsStructure(s: State, h: Option<ThreadId>, step: Step)
    requires Structure(s, h) && Enabled(s, step)
    ensures Structure(Next(s, step), NextHolder(h, Next(s, step), step))
  {
    match step
    case Begin(t, call) => BeginKeepsStructure(s, h, t, call);
    case Caller(t, outcome) => CallerKeepsStructure(s, h, t, outcome);
    case PumpStep(c) => PumpKeepsStructure(s, h, c);
    case EngineStep(c, feedStep) => FeedIrrelevant(s, h, c, FeedNext(s.conns[c].feed, feedStep));
  }
}
