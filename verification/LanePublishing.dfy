/** Every step keeps what the lane says about the published state. */
module LanePublishing {
  import opened Wrappers
  import opened Feed
  import opened Pump
  import opened PumpProofs
  import opened Lane
  import opened LaneInvariant
  import opened LaneStructure

  /** A running pump and an untaken connection are the held one. */
  lemma OneHeld(s: State, h: Option<ThreadId>, c: ConnId, d: ConnId)
    requires Structure(s, h) && c in s.conns && d in s.conns
    requires Running(s.conns[c].pump.pc) || Live(s.conns[c])
    requires Running(s.conns[d].pump.pc) || Live(s.conns[d])
    ensures c == d && Held(s, h, c)
  {
    assert ConnOk(s.conns[c], s.lane.active == Some(c), HolderCall(s, h), c);
    assert ConnOk(s.conns[d], s.lane.active == Some(d), HolderCall(s, h), d);
  }

  /** While the holder is at a call that handles no untaken connection there is none. */
  lemma NoneUntaken(s: State, h: Option<ThreadId>, t: ThreadId, c: ConnId)
    requires Structure(s, h) && t in s.callers && WindowOf(s.callers[t]).Some? && c in s.conns
    requires !s.callers[t].Retire? && !s.callers[t].Install?
    ensures !s.conns[c].slot.Full? && !s.conns[c].slot.NotYet?
  {
    assert ConnOk(s.conns[c], s.lane.active == Some(c), HolderCall(s, h), c);
  }

  /** A looping pump publishes exactly its new last state. */
  lemma PublishedIsLast(cn: Conn)
    requires Looping(cn.pump.pc)
    ensures PumpPublishes(cn).Some? ==> PumpNext(cn).pump.last == PumpPublishes(cn)
    ensures PumpPublishes(cn).None? ==> PumpNext(cn).pump.last == cn.pump.last
  {
  }

  lemma PumpKeepsDelivery(s: State, h: Option<ThreadId>, c: ConnId)
    requires Structure(s, h) && DeliveryOk(s) && Enabled(s, PumpStep(c))
    ensures DeliveryOk(Next(s, PumpStep(c)))
  {
    var s' := Next(s, PumpStep(c));
    forall d | d in s'.conns && (s'.conns[d].slot.NotYet? || s'.conns[d].slot.Full?)
      ensures Delivering(s'.conns[d]) && s'.conns[d].slot.Full?
      ensures s'.conns[d].pump.last.Some? ==> s'.published == s'.conns[d].pump.last.value
    {
      PumpKeepsConn(s.conns[c], s.lane.active == Some(c), HolderCall(s, h), c);
      assert ConnOk(s.conns[d], s.lane.active == Some(d), HolderCall(s, h), d);
      OneHeld(s, h, c, d);
      PumpStepDelivers(s.conns[c]);
      PublishedIsLast(s.conns[c]);
    }
  }

  lemma EngineKeepsDelivery(s: State, c: ConnId, feedStep: FeedStep)
    requires DeliveryOk(s) && Enabled(s, EngineStep(c, feedStep))
    ensures DeliveryOk(Next(s, EngineStep(c, feedStep)))
  {
    if s.conns[c].slot.NotYet? || s.conns[c].slot.Full? {
      EngineStepDelivers(s.conns[c], feedStep);
    }
  }

  /** What a caller step can do to an untaken connection: create it, or install it. */
  lemma CallerOnUntaken(s: State, h: Option<ThreadId>, t: ThreadId, outcome: Outcome, d: ConnId)
    requires Structure(s, h) && CallerEnabled(s, t, outcome)
    requires d in CallerNext(s, t, outcome).conns
    requires var slot := CallerNext(s, t, outcome).conns[d].slot; slot.NotYet? || slot.Full?
    ensures var cn' := CallerNext(s, t, outcome).conns[d];
            if d !in s.conns then cn' == FRESH_CONN
            else cn' == s.conns[d]
                 || (s.conns[d].slot.NotYet? && s.conns[d].pump.pc.NotStarted?
                     && cn' == At(s.conns[d].(slot := Full), Receive))
  {
    if d in s.conns {
      assert ConnOk(s.conns[d], s.lane.active == Some(d), HolderCall(s, h), d);
    }
  }

  /** A caller publishes only while no connection is untaken. */
  lemma CallerPublishes(s: State, h: Option<ThreadId>, t: ThreadId, outcome: Outcome, d: ConnId)
    requires Structure(s, h) && CallerEnabled(s, t, outcome) && d in s.conns
    requires CallerNext(s, t, outcome).published != s.published
    ensures !s.conns[d].slot.Full? && !s.conns[d].slot.NotYet?
    ensures CallerNext(s, t, outcome).conns == s.conns
  {
    NoneUntaken(s, h, t, d);
  }

  lemma CallerKeepsDelivery(s: State, h: Option<ThreadId>, t: ThreadId, outcome: Outcome)
    requires Structure(s, h) && DeliveryOk(s) && CallerEnabled(s, t, outcome)
    ensures DeliveryOk(CallerNext(s, t, outcome))
  {
    var s' := CallerNext(s, t, outcome);
    forall d | d in s'.conns && (s'.conns[d].slot.NotYet? || s'.conns[d].slot.Full?)
      ensures Delivering(s'.conns[d])
      ensures s'.conns[d].slot.NotYet? ==> s'.conns[d].pump.last.None?
      ensures s'.conns[d].pump.last.Some? ==> s'.published == s'.conns[d].pump.last.value
    {
      CallerOnUntaken(s, h, t, outcome, d);
      if d !in s.conns {
        FreshDelivers();
      } else {
        if s'.published != s.published {
          CallerPublishes(s, h, t, outcome, d);
        }
        if s'.conns[d] != s.conns[d] {
          InstallDelivers(s.conns[d]);
        }
      }
    }
  }

  lemma StepKeepsDelivery(s: State, h: Option<ThreadId>, step: Step)
    requires Structure(s, h) && DeliveryOk(s) && Enabled(s, step)
    ensures DeliveryOk(Next(s, step))
  {
    match step
    case Begin(t, call) =>
    case Caller(t, outcome) => CallerKeepsDelivery(s, h, t, outcome);
    case PumpStep(c) => PumpKeepsDelivery(s, h, c);
    case EngineStep(c, feedStep) => EngineKeepsDelivery(s, c, feedStep);
  }

  lemma PumpKeepsIdle(s: State, h: Option<ThreadId>, c: ConnId)
    requires Structure(s, h) && IdleOk(s, h) && Enabled(s, PumpStep(c))
    ensures IdleOk(Next(s, PumpStep(c)), h)
  {
    OneHeld(s, h, c, c);
    PumpKeepsConn(s.conns[c], s.lane.active == Some(c), HolderCall(s, h), c);
  }

  lemma EnteringKeepsIdle(s: State, h: Option<ThreadId>, t: ThreadId)
    requires Structure(s, h) && IdleOk(s, h) && CallerEnabled(s, t, Failed) && Entering(s.callers[t])
    ensures var s' := CallerNext(s, t, Failed); IdleOk(s', NextHolder(h, s', Caller(t, Failed)))
  {
    assert h != Some(t);
  }

  lemma HolderKeepsIdle(s: State, t: ThreadId, outcome: Outcome)
    requires Structure(s, Some(t)) && IdleOk(s, Some(t)) && CallerEnabled(s, t, outcome)
    ensures var s' := CallerNext(s, t, outcome); IdleOk(s', NextHolder(Some(t), s', Caller(t, outcome)))
  {
  }

  lemma StepKeepsIdle(s: State, h: Option<ThreadId>, step: Step)
    requires Structure(s, h) && IdleOk(s, h) && Enabled(s, step)
    ensures IdleOk(Next(s, step), NextHolder(h, Next(s, step), step))
  {
    match step
    case Begin(t, call) => assert h != Some(t);
    case Caller(t, outcome) =>
      if Entering(s.callers[t]) {
        EnteringKeepsIdle(s, h, t);
      } else {
        assert WindowOf(s.callers[t]).Some?;
        HolderKeepsIdle(s, t, outcome);
      }
    case PumpStep(c) => PumpKeepsIdle(s, h, c);
    case EngineStep(c, feedStep) =>
  }

  lemma HolderKeepsTransition(s: State, t: ThreadId, outcome: Outcome)
    requires Structure(s, Some(t)) && TransitionOk(s, Some(t)) && CallerEnabled(s, t, outcome)
    ensures var s' := CallerNext(s, t, outcome); TransitionOk(s', NextHolder(Some(t), s', Caller(t, outcome)))
  {
    assert WindowOf(s.callers[t]).Some?;
  }

  lemma EnteringKeepsTransition(s: State, h: Option<ThreadId>, t: ThreadId)
    requires Structure(s, h) && TransitionOk(s, h) && CallerEnabled(s, t, Failed) && Entering(s.callers[t])
    ensures var s' := CallerNext(s, t, Failed); TransitionOk(s', NextHolder(h, s', Caller(t, Failed)))
  {
    assert h != Some(t);
  }

  lemma PumpKeepsTransition(s: State, h: Option<ThreadId>, c: ConnId)
    requires Structure(s, h) && TransitionOk(s, h) && Enabled(s, PumpStep(c))
    ensures TransitionOk(Next(s, PumpStep(c)), h)
  {
    OneHeld(s, h, c, c);
    PumpKeepsConn(s.conns[c], s.lane.active == Some(c), HolderCall(s, h), c);
    assert ConnOk(s.conns[c], s.lane.active == Some(c), HolderCall(s, h), c);
  }

  lemma StepKeepsTransition(s: State, h: Option<ThreadId>, step: Step)
    requires Structure(s, h) && TransitionOk(s, h) && Enabled(s, step)
    ensures TransitionOk(Next(s, step), NextHolder(h, Next(s, step), step))
  {
    match step
    case Begin(t, call) => assert h != Some(t);
    case Caller(t, outcome) =>
      if Entering(s.callers[t]) {
        EnteringKeepsTransition(s, h, t);
      } else {
        assert WindowOf(s.callers[t]).Some?;
        HolderKeepsTransition(s, t, outcome);
      }
    case PumpStep(c) => PumpKeepsTransition(s, h, c);
    case EngineStep(c, feedStep) =>
  }

  lemma StepKeepsInv(s: State, h: Option<ThreadId>, step: Step)
    requires Inv(s, h) && Enabled(s, step)
    ensures Inv(Next(s, step), NextHolder(h, Next(s, step), step))
  {
    StepKeepsStructure(s, h, step);
    StepKeepsDelivery(s, h, step);
    StepKeepsIdle(s, h, step);
    StepKeepsTransition(s, h, step);
  }
}
