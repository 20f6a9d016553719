/**
  Queue delivery against the authoritative poll, exactly: with recovery off and no unseen drop,
  the events on their way carry the states after the last considered one, and that one again
  only after one kind of step, which a repetition then silently undoes.
 */
module LaneDelivery {
  import opened Wrappers
  import opened Feed
  import opened Pump
  import opened PumpProofs
  import opened Lane
  import opened LaneInvariant
  import opened LanePublishing
  import opened LaneSafety

  /** The sender has recorded the state the pump considered last and has yet to queue it. */
  predicate Owing(cn: Conn) { cn.feed.sender == Sending(StateChange(cn.pump.considered)) }

  /** The next pump step disarms recovery while the sender still owes the considered state. */
  predicate DisarmsOwing(cn: Conn) {
    && cn.slot.Full? && cn.pump.pc.Probe? && cn.pump.backlog
    && cn.feed.queue == [] && !cn.feed.closed && Owing(cn)
  }

  /** The next pump step handles a state event. */
  predicate HandlesState(cn: Conn) { cn.pump.pc.Handle? && cn.pump.pc.event.StateChange? }

  // ---------------------------------------------------------------------------------------
  // One connection

  /** The considered state is still owed, or is the next one to be handled. */
  predicate AwaitsRepeat(cn: Conn) {
    || (InFlight(cn) == [] && Owing(cn))
    || (Undelivered(cn) != [] && (cn.pump.backlog || Undelivered(cn)[0] == cn.pump.considered))
  }

  /** How `rep`, that a repetition is due, shows in a connection nobody has taken. */
  predicate RepeatOk(cn: Conn, rep: bool) {
    && (!cn.pump.pc.Claim? && InStep(cn) ==>
          (rep <==> cn.pump.considered + |Undelivered(cn)| != Sent(cn.feed)))
    && (!cn.pump.pc.Claim? && rep ==> AwaitsRepeat(cn))
    && (cn.pump.watermark == 0 ==> !cn.pump.backlog && !rep)
  }

  predicate RepeatNext(cn: Conn, rep: bool) { DisarmsOwing(cn) || (rep && !HandlesState(cn)) }

  lemma FreshRepeat()
    ensures RepeatOk(FRESH_CONN, false)
  {
    assert InFlight(FRESH_CONN) == [];
  }

  lemma ForwardKeepsRepeat(cn: Conn, rep: bool)
    requires BooksOk(cn) && RepeatOk(cn, rep) && FeedEnabled(cn.feed, Forward)
    ensures RepeatOk(cn.(feed := FeedNext(cn.feed, Forward)), rep)
  {
    var cn' := cn.(feed := FeedNext(cn.feed, Forward));
    var event := cn.feed.sender.event;
    if |cn.feed.queue| < EVENT_CHANNEL_BOUND {
      Queued(cn, cn', event);
      if event.StateChange? {
        NumbersOfOne(event.n);
      }
    } else {
      assert InFlight(cn') == InFlight(cn);
    }
  }

  lemma EngineKeepsRepeat(cn: Conn, step: FeedStep, rep: bool)
    requires BooksOk(cn) && RepeatOk(cn, rep) && FeedEnabled(cn.feed, step)
    ensures RepeatOk(cn.(feed := FeedNext(cn.feed, step)), rep)
  {
    if step.Forward? {
      ForwardKeepsRepeat(cn, rep);
    } else {
      assert InFlight(cn.(feed := FeedNext(cn.feed, step))) == InFlight(cn);
    }
  }

  lemma InstallKeepsRepeat(cn: Conn, rep: bool)
    requires RepeatOk(cn, rep) && cn.pump.pc.NotStarted?
    ensures RepeatOk(At(cn.(slot := Full), Receive), rep)
  {
    assert InFlight(At(cn.(slot := Full), Receive)) == InFlight(cn);
  }

  /** Deciding on the oldest undelivered state leaves exactly those after it. */
  lemma DecidedCount(n: nat, xs: seq<nat>, considered: nat, sent: int)
    requires Orderly([n] + xs, considered, sent, false, true)
    ensures n + |xs| == sent
  {
    assert ([n] + xs)[0] == n;
  }

  lemma HandledRest(cn: Conn, n: nat)
    requires BooksOk(cn) && cn.slot.Full? && cn.pump.pc == Handle(StateChange(n))
    ensures Undelivered(cn) == [n] + Undelivered(PumpNext(cn))
  {
    var cn' := PumpNext(cn);
    InFlightAfterStep(cn);
    NumbersOfConcat([StateChange(n)], InFlight(cn'));
    NumbersOfOne(n);
  }

  lemma HandlingEndsRepeat(cn: Conn, n: nat)
    requires BooksOk(cn) && InOrder(cn) && cn.slot.Full? && cn.pump.pc == Handle(StateChange(n))
    requires cn.pump.watermark == 0 ==> !cn.pump.backlog
    ensures RepeatOk(PumpNext(cn), false)
  {
    HandledRest(cn, n);
    if InStep(cn) {
      DecidedCount(n, Undelivered(PumpNext(cn)), cn.pump.considered, Sent(cn.feed));
    }
  }

  lemma HandlingIsSilent(cn: Conn, n: nat)
    requires BooksOk(cn) && InOrder(cn) && RepeatOk(cn, true)
    requires cn.slot.Full? && cn.pump.pc == Handle(StateChange(n))
    ensures PumpPublishes(cn).None?
  {
    DecidedNumber(cn);
    assert Undelivered(cn)[0] == n && 1 <= n;
    assert InFlight(cn) != [];
  }

  /** Arming recovery, and moving on to the newest state in recovery, leave a repetition due. */
  lemma RepeatFrame(cn: Conn, cn': Conn, rep: bool)
    requires RepeatOk(cn, rep) && !cn.pump.pc.Claim? && SenderOk(cn.feed)
    requires InFlight(cn') == InFlight(cn) && cn'.feed == cn.feed
    requires cn'.pump.considered == cn.pump.considered
             || (cn'.pump.backlog && cn'.pump.considered == |cn.feed.history|)
    requires cn.pump.backlog ==> cn'.pump.backlog
    requires InStep(cn') ==> InStep(cn)
    requires cn'.pump.watermark == 0 ==> cn.pump.watermark == 0 && !cn'.pump.backlog
    ensures RepeatOk(cn', rep)
  {
  }

  lemma ReconcilingKeepsRepeat(cn: Conn, rep: bool)
    requires BooksOk(cn) && RepeatOk(cn, rep) && cn.slot.Full? && cn.pump.pc.Reconcile?
    ensures RepeatOk(PumpNext(cn), rep)
  {
    if !PumpNext(cn).pump.pc.Claim? {
      InFlightAfterStep(cn);
      assert InFlight(PumpNext(cn)) == InFlight(cn);
      RepeatFrame(cn, PumpNext(cn), rep);
    }
  }

  lemma ReceivingKeepsRepeat(cn: Conn, rep: bool)
    requires BooksOk(cn) && RepeatOk(cn, rep) && cn.slot.Full? && cn.pump.pc.Receive?
    ensures RepeatOk(PumpNext(cn), rep)
  {
    InFlightAfterReceive(cn);
  }

  lemma OtherEventKeepsRepeat(cn: Conn, event: Event, rep: bool)
    requires BooksOk(cn) && RepeatOk(cn, rep) && cn.slot.Full? && cn.pump.pc == Handle(event)
    requires !event.StateChange?
    ensures RepeatOk(PumpNext(cn), rep)
  {
    if !PumpNext(cn).pump.pc.Claim? {
      InFlightAfterStep(cn);
      NumbersOfConcat([event], InFlight(PumpNext(cn)));
    }
  }

  /**
    At the disarming probe delivery is strict afterwards, if it is in step at all, exactly if
    the sender does not owe the considered state.
   */
  lemma DisarmingDecides(cn: Conn, rep: bool)
    requires BooksOk(cn) && RepeatOk(cn, rep) && cn.slot.Full? && cn.pump.pc.Probe?
    requires cn.pump.backlog && cn.feed.queue == [] && !cn.feed.closed
    ensures RepeatOk(PumpNext(cn), Owing(cn))
    ensures rep ==> Owing(cn)
  {
    assert InFlight(cn) == [] && InFlight(PumpNext(cn)) == [];
  }

  lemma ProbingKeepsRepeat(cn: Conn, rep: bool)
    requires BooksOk(cn) && RepeatOk(cn, rep) && cn.slot.Full? && cn.pump.pc.Probe?
    ensures RepeatOk(PumpNext(cn), RepeatNext(cn, rep))
  {
    if cn.pump.backlog && cn.feed.queue == [] && !cn.feed.closed {
      DisarmingDecides(cn, rep);
    } else {
      InFlightAfterProbe(cn);
    }
  }

  lemma PumpKeepsRepeat(cn: Conn, rep: bool)
    requires Delivering(cn) && RepeatOk(cn, rep) && cn.slot.Full? && Looping(cn.pump.pc) && PumpNext(cn).slot.Full?
    ensures RepeatOk(PumpNext(cn), RepeatNext(cn, rep))
  {
    match cn.pump.pc
    case Receive => ReceivingKeepsRepeat(cn, rep);
    case Reconcile(_, _) => ReconcilingKeepsRepeat(cn, rep);
    case Probe => ProbingKeepsRepeat(cn, rep);
    case Handle(event) =>
      if event.StateChange? {
        HandlingEndsRepeat(cn, event.n);
      } else {
        OtherEventKeepsRepeat(cn, event, rep);
      }
  }

  // ---------------------------------------------------------------------------------------
  // Runs

  predicate PumpStepAt(r: Run, k: nat, c: ConnId) {
    k < |r.steps| && k < |r.states| && r.steps[k] == PumpStep(c) && c in r.states[k].conns
  }

  predicate OwingAt(r: Run, k: nat, c: ConnId) {
    PumpStepAt(r, k, c) && DisarmsOwing(r.states[k].conns[c])
  }

  predicate HandledAt(r: Run, k: nat, c: ConnId) {
    PumpStepAt(r, k, c) && HandlesState(r.states[k].conns[c])
  }

  ghost predicate RepeatingSince(r: Run, k: nat, i: nat, c: ConnId) {
    k < i && OwingAt(r, k, c) && forall m :: k < m < i ==> !HandledAt(r, m, c)
  }

  /** A disarm met the sender still owing the considered state, and no state was handled since. */
  ghost predicate Repeating(r: Run, i: nat, c: ConnId) {
    exists k :: RepeatingSince(r, k, i, c)
  }

  lemma RepeatingNext(r: Run, i: nat, c: ConnId)
    ensures Repeating(r, i + 1, c) <==> OwingAt(r, i, c) || (Repeating(r, i, c) && !HandledAt(r, i, c))
  {
    if OwingAt(r, i, c) {
      assert RepeatingSince(r, i, i + 1, c);
    }
    if Repeating(r, i, c) && !HandledAt(r, i, c) {
      var k :| RepeatingSince(r, k, i, c);
      assert RepeatingSince(r, k, i + 1, c);
    }
    if Repeating(r, i + 1, c) && !OwingAt(r, i, c) {
      var k :| RepeatingSince(r, k, i + 1, c);
      assert RepeatingSince(r, k, i, c);
    }
  }

  predicate Untaken(cn: Conn) { cn.slot.NotYet? || cn.slot.Full? }

  lemma UntakenDelivers(s: State, h: Option<ThreadId>, c: ConnId)
    requires Inv(s, h) && c in s.conns && Untaken(s.conns[c])
    ensures Delivering(s.conns[c])
    ensures s.conns[c].slot.Full? ==> Looping(s.conns[c].pump.pc)
    ensures s.conns[c].slot.NotYet? ==> s.conns[c].pump.pc.NotStarted?
  {
    assert ConnOk(s.conns[c], s.lane.active == Some(c), HolderCall(s, h), c);
  }

  /** What a step makes of a repetition that is due. */
  predicate RepeatAfter(s: State, step: Step, c: ConnId, rep: bool) {
    if step == PumpStep(c) && c in s.conns then RepeatNext(s.conns[c], rep) else rep
  }

  lemma PumpStepKeepsRepeat(s: State, h: Option<ThreadId>, c: ConnId, rep: bool)
    requires Inv(s, h) && Enabled(s, PumpStep(c))
    requires Untaken(s.conns[c]) && RepeatOk(s.conns[c], rep) && Untaken(PumpNext(s.conns[c]))
    ensures RepeatOk(PumpNext(s.conns[c]), RepeatNext(s.conns[c], rep))
  {
    UntakenDelivers(s, h, c);
    StaysFull(s.conns[c]);
    PumpKeepsRepeat(s.conns[c], rep);
  }

  lemma StaysFull(cn: Conn)
    requires Running(cn.pump.pc) && cn.slot.Full? && Untaken(PumpNext(cn))
    ensures PumpNext(cn).slot.Full?
  {
  }

  lemma EngineStepKeepsRepeat(s: State, h: Option<ThreadId>, d: ConnId, feedStep: FeedStep, c: ConnId, rep: bool)
    requires Inv(s, h) && Enabled(s, EngineStep(d, feedStep)) && c in s.conns
    requires Untaken(s.conns[c]) && RepeatOk(s.conns[c], rep)
    ensures RepeatOk(Next(s, EngineStep(d, feedStep)).conns[c], rep)
  {
    if c == d {
      UntakenDelivers(s, h, c);
      EngineKeepsRepeat(s.conns[c], feedStep, rep);
    }
  }

  lemma CallerStepKeepsRepeat(s: State, h: Option<ThreadId>, t: ThreadId, outcome: Outcome, c: ConnId, rep: bool)
    requires Inv(s, h) && CallerEnabled(s, t, outcome) && c in CallerNext(s, t, outcome).conns
    requires Untaken(CallerNext(s, t, outcome).conns[c])
    requires if c in s.conns then Untaken(s.conns[c]) && RepeatOk(s.conns[c], rep) else !rep
    ensures RepeatOk(CallerNext(s, t, outcome).conns[c], rep)
  {
    CallerOnUntaken(s, h, t, outcome, c);
    if c !in s.conns {
      FreshRepeat();
    } else if CallerNext(s, t, outcome).conns[c] != s.conns[c] {
      InstallKeepsRepeat(s.conns[c], rep);
    }
  }

  lemma StepKeepsRepeat(s: State, h: Option<ThreadId>, step: Step, c: ConnId, rep: bool)
    requires Inv(s, h) && Enabled(s, step) && c in Next(s, step).conns && Untaken(Next(s, step).conns[c])
    requires if c in s.conns then Untaken(s.conns[c]) && RepeatOk(s.conns[c], rep) else !rep
    ensures RepeatOk(Next(s, step).conns[c], RepeatAfter(s, step, c, rep))
  {
    match step
    case Begin(_, _) =>
    case Caller(t, outcome) => CallerStepKeepsRepeat(s, h, t, outcome, c, rep);
    case PumpStep(d) => if c == d { PumpStepKeepsRepeat(s, h, c, rep); }
    case EngineStep(d, feedStep) => EngineStepKeepsRepeat(s, h, d, feedStep, c, rep);
  }

  /** A connection that does not exist yet repeats nothing. */
  lemma NothingBefore(r: Run, i: nat, c: ConnId)
    requires ValidRun(r) && i < |r.states| && c !in r.states[i].conns
    ensures !Repeating(r, i, c)
  {
    if k :| RepeatingSince(r, k, i, c) {
      TakenOnceAndForward(r, k, i, c);
    }
  }

  lemma StillUntaken(r: Run, i: nat, c: ConnId)
    requires ValidRun(r) && i < |r.steps| && c in r.states[i].conns
    requires c in r.states[i + 1].conns && Untaken(r.states[i + 1].conns[c])
    ensures Untaken(r.states[i].conns[c])
  {
    RunConnStep(r, i, c);
  }

  lemma RepeatAt(r: Run, i: nat, c: ConnId)
    requires ValidRun(r) && i < |r.steps| && c in r.states[i + 1].conns && Untaken(r.states[i + 1].conns[c])
    requires c in r.states[i].conns ==>
               Untaken(r.states[i].conns[c]) && RepeatOk(r.states[i].conns[c], Repeating(r, i, c))
    requires c !in r.states[i].conns ==> !Repeating(r, i, c)
    ensures RepeatOk(r.states[i + 1].conns[c], Repeating(r, i + 1, c))
  {
    var h := RunInv(r, i);
    assert StepAt(r, i);
    StepKeepsRepeat(r.states[i], h, r.steps[i], c, Repeating(r, i, c));
    RepeatingNext(r, i, c);
  }

  lemma {:induction false} RunRepeats(r: Run, i: nat, c: ConnId)
    requires ValidRun(r) && i < |r.states| && c in r.states[i].conns && Untaken(r.states[i].conns[c])
    ensures RepeatOk(r.states[i].conns[c], Repeating(r, i, c))
  {
    if i > 0 {
      if c in r.states[i - 1].conns {
        StillUntaken(r, i - 1, c);
        RunRepeats(r, i - 1, c);
      } else {
        NothingBefore(r, i - 1, c);
      }
      RepeatAt(r, i - 1, c);
    }
  }

  /** The connection is in its slot, the pump in its loop, recovery off and no drop outstanding. */
  predicate Level(cn: Conn) { cn.slot.Full? && !cn.pump.pc.Claim? && InStep(cn) }

  lemma LevelIsExact(cn: Conn, rep: bool)
    requires Delivering(cn) && RepeatOk(cn, rep) && Level(cn)
    ensures Strict(Undelivered(cn), cn.pump.considered, Sent(cn.feed)) <==> !rep
    ensures Repeats(Undelivered(cn), cn.pump.considered, Sent(cn.feed)) <==> rep
    ensures cn.pump.watermark == 0 ==> !rep
  {
    assert Exact(Undelivered(cn), cn.pump.considered, Sent(cn.feed));
  }

  /**
    Queue delivery refines the poll: with recovery off and no drop outstanding, the event in
    hand, the pending event and the queue carry exactly the states after the last considered one
    up to the last one offered, unless a disarm met the sender still owing the considered state
    and no state was handled since; exactly then they start with that state once more. On a
    connection whose pump never saw a drop that does not happen.
   */
  lemma DeliveryIsExact(r: Run, i: nat, c: ConnId)
    requires ValidRun(r) && i < |r.states| && c in r.states[i].conns && Level(r.states[i].conns[c])
    ensures var cn := r.states[i].conns[c];
      && (Strict(Undelivered(cn), cn.pump.considered, Sent(cn.feed)) <==> !Repeating(r, i, c))
      && (Repeats(Undelivered(cn), cn.pump.considered, Sent(cn.feed)) <==> Repeating(r, i, c))
      && (cn.pump.watermark == 0 ==> !Repeating(r, i, c))
  {
    var h := RunInv(r, i);
    UntakenDelivers(r.states[i], h, c);
    RunRepeats(r, i, c);
    LevelIsExact(r.states[i].conns[c], Repeating(r, i, c));
  }

  /** The repeated state publishes nothing when it is handled. */
  lemma RepetitionIsSilent(r: Run, i: nat, c: ConnId)
    requires ValidRun(r) && i < |r.steps| && Repeating(r, i, c) && HandledAt(r, i, c)
    ensures r.states[i + 1].published == r.states[i].published && !Repeating(r, i + 1, c)
  {
    var h := RunInv(r, i);
    assert StepAt(r, i);
    RepeatingNext(r, i, c);
    var cn := r.states[i].conns[c];
    if cn.slot.Full? {
      UntakenDelivers(r.states[i], h, c);
      RunRepeats(r, i, c);
      HandlingIsSilent(cn, cn.pump.pc.event.n);
    }
  }
}
