/** What a drain's return means, for the rest of the run and for what stays published. */
module LaneDrain {
  import opened Wrappers
  import opened Feed
  import opened Pump
  import opened Lane
  import opened LaneInvariant
  import opened LaneStructure
  import opened LanePublishing
  import opened LaneSafety

  /** The step by which a drain call returns. */
  predicate DrainReturns(s: State, step: Step) {
    && step.Caller? && step.t in s.callers
    && (s.callers[step.t].ClearDraining? || (s.callers[step.t].DrainWait? && s.lane.active.None?))
  }

  /** The lane is shut for good. */
  ghost predicate Sealed(s: State) {
    && s.draining && s.lane == EMPTY_LANE
    && (forall t :: t in s.callers ==> WindowOf(s.callers[t]).None?)
    && AllDown(s)
  }

  lemma IdleIsSealed(s: State, h: Option<ThreadId>)
    requires Inv(s, h) && h.None? && s.lane.active.None? && s.draining
    ensures Sealed(s)
  {
    NothingHeldIsAllDown(s, h);
  }

  lemma DrainReturnSeals(s: State, h: Option<ThreadId>, step: Step)
    requires Inv(s, h) && Enabled(s, step) && DrainReturns(s, step)
    ensures Sealed(Next(s, step))
  {
    StepKeepsInv(s, h, step);
    var s' := Next(s, step);
    assert Drainer(s.callers[step.t]);
    if s.callers[step.t].DrainWait? {
      assert h.None?;
    } else {
      assert h == Some(step.t);
    }
    IdleIsSealed(s', NextHolder(h, s', step));
  }

  lemma StepKeepsSealed(s: State, step: Step)
    requires Sealed(s) && Enabled(s, step)
    ensures Sealed(Next(s, step)) && Next(s, step).published == s.published
  {
  }

  lemma RunReturnSeals(r: Run, i: nat)
    requires ValidRun(r) && i < |r.steps| && DrainReturns(r.states[i], r.steps[i])
    ensures Sealed(r.states[i + 1])
  {
    var h := RunInv(r, i);
    assert StepAt(r, i);
    DrainReturnSeals(r.states[i], h, r.steps[i]);
  }

  lemma RunKeepsSealed(r: Run, i: nat)
    requires ValidRun(r) && i < |r.steps| && Sealed(r.states[i])
    ensures Sealed(r.states[i + 1]) && r.states[i + 1].published == r.states[i].published
  {
    assert StepAt(r, i);
    StepKeepsSealed(r.states[i], r.steps[i]);
  }

  /**
    Drain is final: from the moment any drain call has returned, in every later state no
    connection is live, no lane is installed, no pump runs, no window is open and the published
    state never changes again.
   */
  lemma {:induction false} DrainIsFinal(r: Run, i: nat, j: nat)
    requires ValidRun(r) && i < j < |r.states| && DrainReturns(r.states[i], r.steps[i])
    ensures Sealed(r.states[j]) && r.states[j].published == r.states[i + 1].published
    decreases j
  {
    if i + 1 == j {
      RunReturnSeals(r, i);
    } else {
      DrainIsFinal(r, i, j - 1);
      RunKeepsSealed(r, j - 1);
    }
  }

  // ---------------------------------------------------------------------------------------
  // A drain that took an entry

  /** A drain is ending the lane, past its take. */
  ghost predicate Ending(s: State, h: Option<ThreadId>) {
    && s.draining && s.lane.active.None?
    && (HolderCall(s, h).Some? ==>
          WindowOf(HolderCall(s, h).value) == Some(DrainWindow)
          && !HolderCall(s, h).value.Retire? && !HolderCall(s, h).value.Announce?)
  }

  /** No pump is left that could publish. */
  ghost predicate Silent(s: State) {
    forall c :: c in s.conns && s.conns[c].slot.TakenByPump? ==> s.conns[c].pump.pc.Exited?
  }

  lemma CallerKeepsEnding(s: State, h: Option<ThreadId>, t: ThreadId, outcome: Outcome)
    requires Structure(s, h) && Ending(s, h) && CallerEnabled(s, t, outcome)
    ensures var s' := CallerNext(s, t, outcome);
      Ending(s', NextHolder(h, s', Caller(t, outcome))) && s'.published == s.published && (Silent(s) ==> Silent(s'))
  {
    assert WindowOf(s.callers[t]).Some? ==> h == Some(t);
  }

  lemma PumpKeepsEnding(s: State, h: Option<ThreadId>, c: ConnId)
    requires Structure(s, h) && Ending(s, h) && Enabled(s, PumpStep(c))
    ensures var s' := Next(s, PumpStep(c));
      Ending(s', h) && (Silent(s) ==> Silent(s') && s'.published == s.published)
  {
    assert ConnOk(s.conns[c], false, HolderCall(s, h), c);
  }

  lemma StepKeepsEnding(s: State, h: Option<ThreadId>, step: Step)
    requires Structure(s, h) && Ending(s, h) && Enabled(s, step)
    ensures Ending(Next(s, step), NextHolder(h, Next(s, step), step))
    ensures Silent(s) ==> Silent(Next(s, step)) && Next(s, step).published == s.published
  {
    match step
    case Begin(t, call) => assert h != Some(t);
    case Caller(t, outcome) => CallerKeepsEnding(s, h, t, outcome);
    case PumpStep(c) => PumpKeepsEnding(s, h, c);
    case EngineStep(_, _) =>
  }

  /** The step by which a drain takes the connection of `c`, or finds it taken. */
  predicate DrainTakes(s: State, step: Step, c: ConnId) {
    step.Caller? && step.t in s.callers && s.callers[step.t] == Retire(ForDrain, c) && c in s.conns
  }

  lemma DrainTakeEnds(s: State, h: Option<ThreadId>, step: Step, c: ConnId)
    requires Structure(s, h) && Enabled(s, step) && DrainTakes(s, step, c)
    ensures h == Some(step.t) && NextHolder(h, Next(s, step), step) == h
    ensures Ending(Next(s, step), h) && Next(s, step).published == s.published
    ensures s.conns[c].slot.Full? ==> Silent(Next(s, step))
  {
    assert WindowOf(s.callers[step.t]).Some?;
    assert Drainer(s.callers[step.t]);
    if s.conns[c].slot.Full? {
      forall d | d in s.conns && s.conns[d].slot.TakenByPump? ensures s.conns[d].pump.pc.Exited? {
        assert ConnOk(s.conns[d], false, HolderCall(s, h), d);
      }
    }
  }

  lemma RunTakeEnds(r: Run, i: nat, c: ConnId) returns (h: Option<ThreadId>)
    requires ValidRun(r) && i < |r.steps| && DrainTakes(r.states[i], r.steps[i], c)
    ensures Structure(r.states[i + 1], h) && Ending(r.states[i + 1], h)
    ensures r.states[i + 1].published == r.states[i].published
    ensures r.states[i].conns[c].slot.Full? ==> Silent(r.states[i + 1])
  {
    h := RunInv(r, i);
    assert StepAt(r, i);
    DrainTakeEnds(r.states[i], h, r.steps[i], c);
    StepKeepsStructure(r.states[i], h, r.steps[i]);
  }

  lemma RunKeepsEnding(r: Run, i: nat, g: Option<ThreadId>) returns (h: Option<ThreadId>)
    requires ValidRun(r) && i < |r.steps| && Structure(r.states[i], g) && Ending(r.states[i], g)
    ensures Structure(r.states[i + 1], h) && Ending(r.states[i + 1], h)
    ensures Silent(r.states[i]) ==>
              Silent(r.states[i + 1]) && r.states[i + 1].published == r.states[i].published
  {
    assert StepAt(r, i);
    StepKeepsEnding(r.states[i], g, r.steps[i]);
    StepKeepsStructure(r.states[i], g, r.steps[i]);
    h := NextHolder(g, r.states[i + 1], r.steps[i]);
  }

  /** From its take on, a drain is what ends the lane. */
  lemma {:induction false} EndingAfterTake(r: Run, i: nat, j: nat, c: ConnId) returns (h: Option<ThreadId>)
    requires ValidRun(r) && i < j < |r.states| && DrainTakes(r.states[i], r.steps[i], c)
    ensures Structure(r.states[j], h) && Ending(r.states[j], h)
    ensures r.states[i].conns[c].slot.Full? ==>
              Silent(r.states[j]) && r.states[j].published == r.states[i].published
    decreases j
  {
    if i + 1 == j {
      h := RunTakeEnds(r, i, c);
    } else {
      h := EndingAfterTake(r, i, j - 1, c);
      h := RunKeepsEnding(r, j - 1, h);
    }
  }

  /**
    A drain that empties the slot freezes the published state: whatever was published at that
    moment is what every later state shows, during the teardown and after it.
   */
  lemma DrainFreezesPublication(r: Run, i: nat, j: nat, c: ConnId)
    requires ValidRun(r) && i < j < |r.states| && DrainTakes(r.states[i], r.steps[i], c)
    requires r.states[i].conns[c].slot.Full?
    ensures r.states[j].published == r.states[i].published
  {
    var h := EndingAfterTake(r, i, j, c);
  }

  // ---------------------------------------------------------------------------------------
  // What is left after any drain

  /** The pump has claimed its connection and will still announce Disconnected. */
  predicate WillAnnounce(cn: Conn) { cn.pump.pc.Closing? || cn.pump.pc.Announcing? }

  /**
    A step that leaves something other than Disconnected published with nobody about to correct
    it: a drain empties the slot of a lane that does not read Disconnected, or a replacing
    connect announces Disconnecting when no announcement of the old pump is to come.
   */
  predicate Strands(s: State, step: Step) {
    && step.Caller? && step.t in s.callers
    && match s.callers[step.t] {
         case Retire(ForDrain, c) => c in s.conns && s.conns[c].slot.Full? && s.published != Disconnected
         case Announce(ForConnect(_), c, _) => c in s.conns && !WillAnnounce(s.conns[c])
         case _ => false
       }
  }

  /** The step by which a connect passes its second draining check and goes on to the engine. */
  predicate PassesRecheck(s: State, step: Step) {
    step.Caller? && step.t in s.callers && s.callers[step.t].Recheck? && !s.draining
  }

  ghost predicate StrandsAt(r: Run, k: nat) {
    k < |r.steps| && k < |r.states| && Strands(r.states[k], r.steps[k])
  }

  ghost predicate PassesAt(r: Run, m: nat) {
    m < |r.steps| && m < |r.states| && PassesRecheck(r.states[m], r.steps[m])
  }

  ghost predicate StrandedSince(r: Run, k: nat, i: nat) {
    k < i && StrandsAt(r, k) && forall m :: k < m < i ==> !PassesAt(r, m)
  }

  /** Before step `i` some step has stranded the published state, and no re-check has passed since. */
  ghost predicate Stranded(r: Run, i: nat) {
    exists k :: StrandedSince(r, k, i)
  }

  lemma StrandedNext(r: Run, i: nat)
    ensures Stranded(r, i + 1) <==> StrandsAt(r, i) || (Stranded(r, i) && !PassesAt(r, i))
  {
    if StrandsAt(r, i) {
      assert StrandedSince(r, i, i + 1);
    }
    if Stranded(r, i) && !PassesAt(r, i) {
      var k :| StrandedSince(r, k, i);
      assert StrandedSince(r, k, i + 1);
    }
    if Stranded(r, i + 1) && !StrandsAt(r, i) {
      var k :| StrandedSince(r, k, i + 1);
      assert StrandedSince(r, k, i);
    }
  }

  /** What is published reads Disconnected, or the pump of `c` is about to make it so. */
  predicate WillRead(s: State, c: ConnId) {
    s.published == Disconnected || (c in s.conns && WillAnnounce(s.conns[c]))
  }

  /** How `b`, that the published state is stranded, shows in a state. */
  predicate VerdictOk(s: State, h: Option<ThreadId>, b: bool) {
    match HolderCall(s, h)
    case None =>
      if s.draining && s.lane.active.None? then b <==> s.published != Disconnected else !b
    case Some(Retire(p, c)) =>
      !b && (p.ForDrain? && c in s.conns && s.conns[c].slot.TakenByPump? ==> WillRead(s, c))
    case Some(Announce(p, _, _)) => !b && !p.ForDrain?
    case Some(Close(p, c, _)) => if p.ForDisconnect? then !b else b <==> !WillRead(s, c)
    case Some(Join(p, c)) => if p.ForDisconnect? then !b else b <==> !WillRead(s, c)
    case Some(Recheck(_)) => b <==> s.published != Disconnected
    case Some(ClearDraining) => b <==> s.published != Disconnected
    case _ => !b
  }

  function Verdict(s: State, step: Step, b: bool): bool { Strands(s, step) || (b && !PassesRecheck(s, step)) }

  /** A pump whose connection the holder handles brings about what it was about to. */
  lemma HandledPumpKeepsVerdict(s: State, h: Option<ThreadId>, c: ConnId, b: bool)
    requires Structure(s, h) && Enabled(s, PumpStep(c)) && VerdictOk(s, h, b) && HolderCall(s, h).Some?
    ensures VerdictOk(Next(s, PumpStep(c)), h, b)
  {
    OneHeld(s, h, c, c);
    assert ConnOk(s.conns[c], false, HolderCall(s, h), c);
  }

  lemma InstalledPumpKeepsVerdict(s: State, h: Option<ThreadId>, c: ConnId, b: bool)
    requires Inv(s, h) && Enabled(s, PumpStep(c)) && VerdictOk(s, h, b) && HolderCall(s, h).None?
    ensures VerdictOk(Next(s, PumpStep(c)), h, b)
  {
    OneHeld(s, h, c, c);
    assert s.lane.active == Some(c);
  }

  lemma PumpKeepsVerdict(s: State, h: Option<ThreadId>, c: ConnId, b: bool)
    requires Inv(s, h) && Enabled(s, PumpStep(c)) && VerdictOk(s, h, b)
    ensures VerdictOk(Next(s, PumpStep(c)), h, b)
  {
    if HolderCall(s, h).Some? {
      HandledPumpKeepsVerdict(s, h, c, b);
    } else {
      InstalledPumpKeepsVerdict(s, h, c, b);
    }
  }

  lemma AdmitKeepsVerdict(s: State, h: Option<ThreadId>, t: ThreadId, b: bool)
    requires Inv(s, h) && CallerEnabled(s, t, Failed) && VerdictOk(s, h, b)
    requires s.callers[t].ConnectAdmit? || s.callers[t].DisconnectAdmit?
    ensures var s' := CallerNext(s, t, Failed);
      VerdictOk(s', NextHolder(h, s', Caller(t, Failed)), b)
  {
    assert h != Some(t);
  }

  lemma DrainEntryKeepsVerdict(s: State, h: Option<ThreadId>, t: ThreadId, b: bool)
    requires Inv(s, h) && CallerEnabled(s, t, Failed) && VerdictOk(s, h, b)
    requires s.callers[t].DrainFlag? || s.callers[t].DrainWait?
    ensures var s' := CallerNext(s, t, Failed);
      VerdictOk(s', NextHolder(h, s', Caller(t, Failed)), b)
  {
    assert h != Some(t);
    if s.lane.active.Some? {
      var c := s.lane.active.value;
      assert ConnOk(s.conns[c], true, HolderCall(s, h), c);
    }
  }

  lemma EnteringKeepsVerdict(s: State, h: Option<ThreadId>, t: ThreadId, b: bool)
    requires Inv(s, h) && CallerEnabled(s, t, Failed) && Entering(s.callers[t]) && VerdictOk(s, h, b)
    ensures var s' := CallerNext(s, t, Failed);
      VerdictOk(s', NextHolder(h, s', Caller(t, Failed)), b)
  {
    if s.callers[t].ConnectAdmit? || s.callers[t].DisconnectAdmit? {
      AdmitKeepsVerdict(s, h, t, b);
    } else {
      DrainEntryKeepsVerdict(s, h, t, b);
    }
  }

  lemma TearingDownKeepsVerdict(s: State, t: ThreadId, b: bool)
    requires Inv(s, Some(t)) && CallerEnabled(s, t, Failed) && TearingDown(s.callers[t]) && VerdictOk(s, Some(t), b)
    ensures VerdictOk(CallerNext(s, t, Failed), Some(t), Verdict(s, Caller(t, Failed), b))
  {
    var c := Target(s.callers[t]).value;
    assert ConnOk(s.conns[c], false, HolderCall(s, Some(t)), c);
  }

  lemma LeavingKeepsVerdict(s: State, t: ThreadId, outcome: Outcome, b: bool)
    requires Inv(s, Some(t)) && CallerEnabled(s, t, outcome) && VerdictOk(s, Some(t), b)
    requires !TearingDown(s.callers[t]) && !Entering(s.callers[t])
    ensures var s' := CallerNext(s, t, outcome);
      VerdictOk(s', if t in s'.callers then Some(t) else None, Verdict(s, Caller(t, outcome), b))
  {
    assert WindowOf(s.callers[t]).Some?;
  }

  lemma HolderKeepsVerdict(s: State, t: ThreadId, outcome: Outcome, b: bool)
    requires Inv(s, Some(t)) && CallerEnabled(s, t, outcome) && VerdictOk(s, Some(t), b)
    requires !Entering(s.callers[t])
    ensures var s' := CallerNext(s, t, outcome);
      VerdictOk(s', if t in s'.callers then Some(t) else None, Verdict(s, Caller(t, outcome), b))
  {
    if TearingDown(s.callers[t]) {
      TearingDownKeepsVerdict(s, t, b);
    } else {
      LeavingKeepsVerdict(s, t, outcome, b);
    }
  }

  /** The holder after a step of the holder. */
  lemma HolderAfter(s: State, h: Option<ThreadId>, t: ThreadId, outcome: Outcome)
    requires Structure(s, h) && CallerEnabled(s, t, outcome) && !Entering(s.callers[t])
    ensures h == Some(t)
    ensures var s' := CallerNext(s, t, outcome);
      NextHolder(h, s', Caller(t, outcome)) == if t in s'.callers then Some(t) else None
  {
    assert WindowOf(s.callers[t]).Some?;
  }

  lemma BeginKeepsVerdict(s: State, h: Option<ThreadId>, t: ThreadId, call: Call, b: bool)
    requires Structure(s, h) && Enabled(s, Begin(t, call)) && VerdictOk(s, h, b)
    ensures VerdictOk(Moved(s, t, call), h, b)
  {
    assert h != Some(t);
  }

  /** What is stranded does not depend on what the engine has announced. */
  lemma FeedLeavesVerdict(s: State, h: Option<ThreadId>, c: ConnId, feed: Feed, b: bool)
    requires c in s.conns && VerdictOk(s, h, b)
    ensures VerdictOk(s.(conns := s.conns[c := s.conns[c].(feed := feed)]), h, b)
  {
  }

  lemma HoldingCallerKeepsVerdict(s: State, h: Option<ThreadId>, t: ThreadId, outcome: Outcome, b: bool)
    requires Inv(s, h) && CallerEnabled(s, t, outcome) && !Entering(s.callers[t]) && VerdictOk(s, h, b)
    ensures var s' := CallerNext(s, t, outcome);
      VerdictOk(s', NextHolder(h, s', Caller(t, outcome)), Verdict(s, Caller(t, outcome), b))
  {
    HolderAfter(s, h, t, outcome);
    HolderKeepsVerdict(s, t, outcome, b);
  }

  lemma EnteringCallerKeepsVerdict(s: State, h: Option<ThreadId>, t: ThreadId, outcome: Outcome, b: bool)
    requires Inv(s, h) && CallerEnabled(s, t, outcome) && Entering(s.callers[t]) && VerdictOk(s, h, b)
    ensures var s' := CallerNext(s, t, outcome);
      VerdictOk(s', NextHolder(h, s', Caller(t, outcome)), Verdict(s, Caller(t, outcome), b))
  {
    EnteringKeepsVerdict(s, h, t, b);
  }

  lemma StepKeepsVerdict(s: State, h: Option<ThreadId>, step: Step, b: bool)
    requires Inv(s, h) && Enabled(s, step) && VerdictOk(s, h, b)
    ensures VerdictOk(Next(s, step), NextHolder(h, Next(s, step), step), Verdict(s, step, b))
  {
    match step
    case Begin(t, call) => BeginKeepsVerdict(s, h, t, call, b);
    case Caller(t, outcome) =>
      if Entering(s.callers[t]) {
        EnteringCallerKeepsVerdict(s, h, t, outcome, b);
      } else {
        HoldingCallerKeepsVerdict(s, h, t, outcome, b);
      }
    case PumpStep(c) => PumpKeepsVerdict(s, h, c, b);
    case EngineStep(c, step') => FeedLeavesVerdict(s, h, c, FeedNext(s.conns[c].feed, step'), b);
  }

  lemma VerdictAfter(r: Run, i: nat, g: Option<ThreadId>) returns (h: Option<ThreadId>)
    requires ValidRun(r) && i < |r.steps|
    requires Inv(r.states[i], g) && VerdictOk(r.states[i], g, Stranded(r, i))
    ensures Inv(r.states[i + 1], h) && VerdictOk(r.states[i + 1], h, Stranded(r, i + 1))
  {
    h := InvAfter(r, i, g);
    StrandedNext(r, i);
    assert StepAt(r, i);
    StepKeepsVerdict(r.states[i], g, r.steps[i], Stranded(r, i));
  }

  lemma {:induction false} RunVerdict(r: Run, i: nat) returns (h: Option<ThreadId>)
    requires ValidRun(r) && i < |r.states|
    ensures Inv(r.states[i], h) && VerdictOk(r.states[i], h, Stranded(r, i))
  {
    if i == 0 {
      InitInv(r.states[0]);
      h := None;
    } else {
      h := RunVerdict(r, i - 1);
      h := VerdictAfter(r, i - 1, h);
    }
  }

  lemma SealedVerdict(s: State, h: Option<ThreadId>, b: bool)
    requires Structure(s, h) && Sealed(s) && VerdictOk(s, h, b)
    ensures b <==> s.published != Disconnected
  {
    assert HolderCall(s, h).None?;
  }

  /**
    What any drain leaves: from its return on, the lane reads Disconnected exactly if no step
    before had stranded another state, or a connect passed its re-check after the last that did.
   */
  lemma DrainOutcome(r: Run, i: nat, j: nat)
    requires ValidRun(r) && i < j < |r.states| && DrainReturns(r.states[i], r.steps[i])
    ensures r.states[j].published == Disconnected <==> !Stranded(r, i + 1)
  {
    DrainIsFinal(r, i, i + 1);
    DrainIsFinal(r, i, j);
    var h := RunVerdict(r, i + 1);
    SealedVerdict(r.states[i + 1], h, Stranded(r, i + 1));
  }

  lemma EndingStrandsNothing(r: Run, i: nat, c: ConnId, j: nat)
    requires ValidRun(r) && i < j < |r.steps| && DrainTakes(r.states[i], r.steps[i], c)
    ensures !StrandsAt(r, j) && !PassesAt(r, j)
  {
    var h := EndingAfterTake(r, i, j, c);
    var step, s := r.steps[j], r.states[j];
    if step.Caller? && step.t in s.callers && WindowOf(s.callers[step.t]).Some? {
      assert h == Some(step.t);
    }
  }

  lemma {:induction false} StrandedAfterTake(r: Run, i: nat, c: ConnId, j: nat)
    requires ValidRun(r) && i < j < |r.states| && DrainTakes(r.states[i], r.steps[i], c)
    ensures Stranded(r, j) <==> Strands(r.states[i], r.steps[i])
    decreases j
  {
    StrandedNext(r, j - 1);
    if i + 1 == j {
      NotStrandedAtTake(r, i, c);
    } else {
      StrandedAfterTake(r, i, c, j - 1);
      EndingStrandsNothing(r, i, c, j - 1);
    }
  }

  lemma NotStrandedAtTake(r: Run, i: nat, c: ConnId)
    requires ValidRun(r) && i < |r.steps| && DrainTakes(r.states[i], r.steps[i], c)
    ensures !Stranded(r, i)
  {
    var h := RunVerdict(r, i);
    assert WindowOf(r.states[i].callers[r.steps[i].t]).Some?;
  }

  /** The slot a drain comes to is full or was taken by the pump. */
  lemma TakeFinds(r: Run, i: nat, c: ConnId)
    requires ValidRun(r) && i < |r.steps| && DrainTakes(r.states[i], r.steps[i], c)
    ensures r.states[i].conns[c].slot.Full? || r.states[i].conns[c].slot.TakenByPump?
  {
    var h := RunInv(r, i);
    assert WindowOf(r.states[i].callers[r.steps[i].t]).Some?;
  }

  /**
    If a drain took an entry: the lane reads Disconnected for ever from any drain's return on
    exactly if the pump had the connection at the take or Disconnected was published then.
   */
  lemma DrainThatTookLeaves(r: Run, i: nat, c: ConnId, k: nat, j: nat)
    requires ValidRun(r) && i < k < j < |r.states| && DrainTakes(r.states[i], r.steps[i], c)
    requires DrainReturns(r.states[k], r.steps[k])
    ensures r.states[j].published == Disconnected <==>
              r.states[i].conns[c].slot.TakenByPump? || r.states[i].published == Disconnected
  {
    DrainOutcome(r, k, j);
    StrandedAfterTake(r, i, c, k + 1);
    TakeFinds(r, i, c);
  }
}
