/** What holds of the lane in every state of every run, and between any two of them. */
module LaneSafety {
  import opened Wrappers
  import opened Feed
  import opened Pump
  import opened PumpProofs
  import opened PumpConvergence
  import opened Lane
  import opened LaneInvariant
  import opened LaneStructure
  import opened LanePublishing

  lemma InitInv(s: State)
    requires Init(s)
    ensures Inv(s, None)
  {
    InitStructure(s);
  }

  lemma InvAfter(r: Run, i: nat, g: Option<ThreadId>) returns (h: Option<ThreadId>)
    requires ValidRun(r) && i < |r.steps| && Inv(r.states[i], g)
    ensures Inv(r.states[i + 1], h) && h == NextHolder(g, r.states[i + 1], r.steps[i])
  {
    assert StepAt(r, i);
    StepKeepsInv(r.states[i], g, r.steps[i]);
    h := NextHolder(g, r.states[i + 1], r.steps[i]);
  }

  lemma {:induction false} RunInv(r: Run, i: nat) returns (h: Option<ThreadId>)
    requires ValidRun(r) && i < |r.states|
    ensures Inv(r.states[i], h)
  {
    if i == 0 {
      InitInv(r.states[0]);
      h := None;
    } else {
      h := RunInv(r, i - 1);
      h := InvAfter(r, i - 1, h);
    }
  }

  // ---------------------------------------------------------------------------------------
  // Windows and connections

  /** Caller `t` is inside the window `w`. */
  predicate InWindow(s: State, t: ThreadId, w: Window) {
    t in s.callers && WindowOf(s.callers[t]) == Some(w)
  }

  /**
    Window exclusion: a set flag belongs to exactly one caller, no two callers are in windows at
    once (so no two flags are set), a set flag means an empty lane, and a lane is owned exactly
    when it is installed.
   */
  lemma WindowExclusion(r: Run, i: nat)
    requires ValidRun(r) && i < |r.states|
    ensures var s := r.states[i];
      && (forall w :: FlagSet(s.lane, w) ==> exists t :: InWindow(s, t, w))
      && (forall t, w :: InWindow(s, t, w) ==> FlagSet(s.lane, w))
      && (forall t, u, v, w :: InWindow(s, t, v) && InWindow(s, u, w) ==> t == u && v == w)
      && (forall v, w :: FlagSet(s.lane, v) && FlagSet(s.lane, w) ==> v == w)
      && (DrainWaits(s.lane) ==> s.lane.active.None? && s.lane.owner.None?)
      && s.lane.owner.Some? == s.lane.active.Some?
  {
    var h := RunInv(r, i);
    var s := r.states[i];
    forall w | FlagSet(s.lane, w) ensures exists t :: InWindow(s, t, w) {
      assert InWindow(s, h.value, w);
    }
  }

  lemma StepClearsOwnFlag(s: State, h: Option<ThreadId>, step: Step, w: Window)
    requires Structure(s, h) && Enabled(s, step)
    requires FlagSet(s.lane, w) && !FlagSet(Next(s, step).lane, w)
    ensures step.Caller? && InWindow(s, step.t, w)
  {
    assert h.Some? && InWindow(s, h.value, w);
    if step.Caller? && WindowOf(s.callers[step.t]).Some? {
      assert step.t == h.value;
    }
  }

  /** Only the caller inside a window clears its flag. */
  lemma OnlyTheHolderClears(r: Run, i: nat, w: Window)
    requires ValidRun(r) && i < |r.steps|
    requires FlagSet(r.states[i].lane, w) && !FlagSet(r.states[i + 1].lane, w)
    ensures r.steps[i].Caller? && InWindow(r.states[i], r.steps[i].t, w)
  {
    var h := RunInv(r, i);
    assert StepAt(r, i);
    StepClearsOwnFlag(r.states[i], h, r.steps[i], w);
  }

  /**
    At most one connection is live, none is disconnected twice, and the live one belongs to the
    installed lane or to the one caller inside a window.
   */
  lemma AtMostOneLive(r: Run, i: nat)
    requires ValidRun(r) && i < |r.states|
    ensures var s := r.states[i];
      && (forall c, d :: c in s.conns && d in s.conns && Live(s.conns[c]) && Live(s.conns[d]) ==> c == d)
      && (forall c :: c in s.conns ==> s.conns[c].disconnects <= 1)
      && (forall c :: c in s.conns && Live(s.conns[c]) ==>
            s.lane.active == Some(c)
            || exists t, w :: InWindow(s, t, w) && Target(s.callers[t]) == Some(c))
  {
    var h := RunInv(r, i);
    var s := r.states[i];
    forall c | c in s.conns
      ensures s.conns[c].disconnects <= 1
      ensures Live(s.conns[c]) && s.lane.active != Some(c) ==>
                exists t, w :: InWindow(s, t, w) && Target(s.callers[t]) == Some(c)
    {
      assert ConnOk(s.conns[c], s.lane.active == Some(c), HolderCall(s, h), c);
      if Live(s.conns[c]) && s.lane.active != Some(c) {
        assert InWindow(s, h.value, WindowOf(s.callers[h.value]).value);
      }
    }
    forall c, d | c in s.conns && d in s.conns && Live(s.conns[c]) && Live(s.conns[d]) ensures c == d {
      OneHeld(s, h, c, d);
    }
  }

  predicate Taken(slot: Slot) { slot.TakenByTeardown? || slot.TakenByPump? }

  lemma CallerConnStep(s: State, h: Option<ThreadId>, t: ThreadId, outcome: Outcome, c: ConnId)
    requires Structure(s, h) && CallerEnabled(s, t, outcome) && c in s.conns
    ensures c in CallerNext(s, t, outcome).conns
    ensures Taken(s.conns[c].slot) ==> CallerNext(s, t, outcome).conns[c].slot == s.conns[c].slot
    ensures CallerNext(s, t, outcome).conns[c].pump.considered == s.conns[c].pump.considered
  {
    if s.callers[t].Install? {
      assert WindowOf(s.callers[t]).Some?;
    }
  }

  lemma PumpConnStep(s: State, h: Option<ThreadId>, c: ConnId)
    requires Inv(s, h) && Enabled(s, PumpStep(c))
    ensures var cn' := PumpNext(s.conns[c]);
      && (Taken(s.conns[c].slot) ==> cn'.slot == s.conns[c].slot)
      && cn'.pump.considered >= s.conns[c].pump.considered
  {
    assert ConnOk(s.conns[c], s.lane.active == Some(c), HolderCall(s, h), c);
    if s.conns[c].slot.Full? {
      PumpStepDelivers(s.conns[c]);
    }
  }

  /** What one step does to a connection that exists, from its own point of view. */
  lemma ConnStep(s: State, h: Option<ThreadId>, step: Step, c: ConnId)
    requires Inv(s, h) && Enabled(s, step) && c in s.conns
    ensures c in Next(s, step).conns
    ensures Taken(s.conns[c].slot) ==> Next(s, step).conns[c].slot == s.conns[c].slot
    ensures Next(s, step).conns[c].pump.considered >= s.conns[c].pump.considered
  {
    match step
    case Begin(_, _) =>
    case Caller(t, outcome) => CallerConnStep(s, h, t, outcome, c);
    case PumpStep(d) => if c == d { PumpConnStep(s, h, c); }
    case EngineStep(_, _) =>
  }

  lemma RunConnStep(r: Run, i: nat, c: ConnId)
    requires ValidRun(r) && i < |r.steps| && c in r.states[i].conns
    ensures c in r.states[i + 1].conns
    ensures Taken(r.states[i].conns[c].slot) ==> r.states[i + 1].conns[c].slot == r.states[i].conns[c].slot
    ensures r.states[i].conns[c].pump.considered <= r.states[i + 1].conns[c].pump.considered
  {
    var h := RunInv(r, i);
    assert StepAt(r, i);
    ConnStep(r.states[i], h, r.steps[i], c);
  }

  /**
    A taken connection stays with the party that took it, and the engine states its pump
    considers never go backwards, over any stretch of a run.
   */
  lemma {:induction false} TakenOnceAndForward(r: Run, i: nat, j: nat, c: ConnId)
    requires ValidRun(r) && i <= j < |r.states| && c in r.states[i].conns
    ensures c in r.states[j].conns
    ensures Taken(r.states[i].conns[c].slot) ==> r.states[j].conns[c].slot == r.states[i].conns[c].slot
    ensures r.states[i].conns[c].pump.considered <= r.states[j].conns[c].pump.considered
    decreases j
  {
    if i < j {
      TakenOnceAndForward(r, i, j - 1, c);
      RunConnStep(r, j - 1, c);
    }
  }

  // ---------------------------------------------------------------------------------------
  // Sections

  /** The step is a section of the lane record: it is taken under the lane lock. */
  predicate LaneSection(s: State, step: Step) {
    match step
    case Caller(t, _) =>
      && t in s.callers
      && var call := s.callers[t];
         || call.ConnectAdmit? || call.DisconnectAdmit? || call.DrainWait? || call.Recheck?
         || call.Install? || call.FailClear? || call.ClearDisconnecting? || call.ClearDraining?
    case PumpStep(c) => c in s.conns && s.conns[c].pump.pc.RetireLane?
    case _ => false
  }

  function WithLane(s: State, lane: LaneState): State { s.(lane := lane) }

  function WithSlot(s: State, c: ConnId, slot: Slot): State
    requires c in s.conns
  {
    s.(conns := s.conns[c := s.conns[c].(slot := slot)])
  }

  /** The connection the step is installing; its slot comes into being in that section. */
  predicate Installs(s: State, step: Step, c: ConnId) {
    step.Caller? && step.t in s.callers && s.callers[step.t].Install? && s.callers[step.t].c == c
  }

  lemma InstallLeavesSlots(s: State, t: ThreadId, uid: Uid, d: ConnId, c: ConnId, slot: Slot)
    requires t in s.callers && s.callers[t] == Install(uid, d) && d in s.conns && c in s.conns && c != d
    ensures InstallNext(WithSlot(s, c, slot), t, uid, d) == WithSlot(InstallNext(s, t, uid, d), c, slot)
  {
    assert InstallNext(WithSlot(s, c, slot), t, uid, d).conns == WithSlot(InstallNext(s, t, uid, d), c, slot).conns;
  }

  lemma CallerSectionLeavesSlots(s: State, t: ThreadId, outcome: Outcome, c: ConnId, slot: Slot)
    requires CallerEnabled(s, t, outcome) && LaneSection(s, Caller(t, outcome))
    requires c in s.conns && !s.callers[t].Install?
    ensures CallerEnabled(WithSlot(s, c, slot), t, outcome) && CallerNext(s, t, outcome).conns == s.conns
    ensures CallerNext(WithSlot(s, c, slot), t, outcome) == WithSlot(CallerNext(s, t, outcome), c, slot)
  {
  }

  lemma PumpSectionLeavesSlots(s: State, d: ConnId, c: ConnId, slot: Slot)
    requires d in s.conns && s.conns[d].pump.pc.RetireLane? && c in s.conns
    ensures PumpStepNext(WithSlot(s, c, slot), d) == WithSlot(PumpStepNext(s, d), c, slot)
  {
    assert PumpStepNext(WithSlot(s, c, slot), d).conns == WithSlot(PumpStepNext(s, d), c, slot).conns;
  }

  lemma LaneSectionLeavesSlots(s: State, step: Step, c: ConnId, slot: Slot)
    requires Enabled(s, step) && LaneSection(s, step) && c in s.conns && !Installs(s, step, c)
    ensures Enabled(WithSlot(s, c, slot), step) && c in Next(s, step).conns
    ensures Next(WithSlot(s, c, slot), step) == WithSlot(Next(s, step), c, slot)
  {
    if step.PumpStep? {
      PumpSectionLeavesSlots(s, step.c, c, slot);
    } else if s.callers[step.t].Install? {
      InstallLeavesSlots(s, step.t, s.callers[step.t].uid, s.callers[step.t].c, c, slot);
    } else {
      CallerSectionLeavesSlots(s, step.t, step.outcome, c, slot);
    }
  }

  lemma OtherStepLeavesLane(s: State, step: Step, lane: LaneState)
    requires Enabled(s, step) && !LaneSection(s, step)
    ensures Enabled(WithLane(s, lane), step)
    ensures Next(WithLane(s, lane), step) == WithLane(Next(s, step), lane)
  {
  }

  /**
    A step that works on the lane record neither changes nor depends on any slot that exists;
    every other step neither changes nor depends on the lane record.
   */
  lemma OneLockPerStep(s: State, step: Step, c: ConnId, slot: Slot, lane: LaneState)
    requires Enabled(s, step) && c in s.conns && !Installs(s, step, c)
    ensures LaneSection(s, step) ==>
              && Enabled(WithSlot(s, c, slot), step) && c in Next(s, step).conns
              && Next(WithSlot(s, c, slot), step) == WithSlot(Next(s, step), c, slot)
    ensures !LaneSection(s, step) ==>
              && Enabled(WithLane(s, lane), step)
              && Next(WithLane(s, lane), step) == WithLane(Next(s, step), lane)
  {
    if LaneSection(s, step) {
      LaneSectionLeavesSlots(s, step, c, slot);
    } else {
      OtherStepLeavesLane(s, step, lane);
    }
  }

  /** Retire first: the step that takes a connection from its slot publishes nothing. */
  lemma TakingPublishesNothing(s: State, step: Step, c: ConnId)
    requires Enabled(s, step) && c in s.conns && s.conns[c].slot.Full?
    requires c in Next(s, step).conns && Taken(Next(s, step).conns[c].slot)
    ensures Next(s, step).lane == s.lane && Next(s, step).published == s.published
  {
  }

  /** A join changes only its caller, and looks at neither the lane record nor any slot. */
  lemma JoinHoldsNothing(s: State, t: ThreadId, outcome: Outcome, lane: LaneState, c: ConnId, slot: Slot)
    requires CallerEnabled(s, t, outcome) && s.callers[t].Join? && c in s.conns
    ensures CallerNext(s, t, outcome) == Moved(s, t, AfterJoin(s.callers[t].purpose))
    ensures CallerEnabled(WithLane(WithSlot(s, c, slot), lane), t, outcome)
  {
  }

  // ---------------------------------------------------------------------------------------
  // Publications

  /** Until a drain is requested an idle lane reads Disconnected. */
  lemma IdleMeansDisconnected(r: Run, i: nat)
    requires ValidRun(r) && i < |r.states|
    requires var s := r.states[i]; !s.draining && s.lane.active.None? && !DrainWaits(s.lane)
    ensures r.states[i].published == Disconnected
  {
    var h := RunInv(r, i);
    assert FlagsOk(r.states[i], h);
  }

  /**
    No stale revert: once anyone has taken the connection from its slot, its pump publishes at
    most the terminal Disconnected, and nothing at all when a teardown took it.
   */
  lemma NoStaleRevert(r: Run, i: nat, j: nat, c: ConnId)
    requires ValidRun(r) && i <= j < |r.steps|
    requires c in r.states[i].conns && Taken(r.states[i].conns[c].slot) && r.steps[j] == PumpStep(c)
    ensures r.states[i].conns[c].slot.TakenByTeardown? ==> r.states[j + 1].published == r.states[j].published
    ensures r.states[j + 1].published == r.states[j].published || r.states[j + 1].published == Disconnected
  {
    TakenOnceAndForward(r, i, j, c);
    var h := RunInv(r, j);
    var s := r.states[j];
    assert StepAt(r, j);
    assert ConnOk(s.conns[c], s.lane.active == Some(c), HolderCall(s, h), c);
  }

  /**
    A disconnect or a replacing connect that won the connection shows Disconnecting from before
    it closes the connection until it has joined the pump: the old state never reads as live.
   */
  lemma TransitionIsShown(r: Run, i: nat, t: ThreadId)
    requires ValidRun(r) && i < |r.states| && t in r.states[i].callers
    requires Announced(r.states[i], r.states[i].callers[t])
    ensures r.states[i].published == Disconnecting
  {
    var h := RunInv(r, i);
    assert WindowOf(r.states[i].callers[t]).Some?;
  }

  /** A drained pump has published the mapping of the engine's latest state. */
  lemma DrainedPumpIsCurrent(r: Run, i: nat, c: ConnId)
    requires ValidRun(r) && i < |r.states| && c in r.states[i].conns
    requires Drained(r.states[i].conns[c]) && r.states[i].conns[c].feed.history != []
    ensures var history := r.states[i].conns[c].feed.history;
            Tells(r.states[i].published, history[|history| - 1])
  {
    var h := RunInv(r, i);
    DrainedIsCurrent(r.states[i].conns[c]);
  }

  /** While nobody has taken the connection, what is published tells the state its pump considered last. */
  lemma PublishedTellsConsidered(r: Run, i: nat, c: ConnId)
    requires ValidRun(r) && i < |r.states| && c in r.states[i].conns
    requires r.states[i].conns[c].slot.Full? && r.states[i].conns[c].pump.considered > 0
    ensures var cn := r.states[i].conns[c];
      && cn.pump.considered <= |cn.feed.history|
      && Tells(r.states[i].published, cn.feed.history[cn.pump.considered - 1])
  {
    var h := RunInv(r, i);
    assert Delivering(r.states[i].conns[c]);
  }

  lemma FullPumpPublishesTruly(cn: Conn)
    requires cn.slot.Full? && Looping(cn.pump.pc) && PumpPublishes(cn).Some? && BooksOk(PumpNext(cn))
    ensures var n, history := PumpNext(cn).pump.considered, PumpNext(cn).feed.history;
      1 <= n <= |history| && Tells(PumpPublishes(cn).value, history[n - 1])
  {
    PublishedIsLast(cn);
    assert LocalsOk(PumpNext(cn));
  }

  lemma PumpPublishesTruly(s: State, h: Option<ThreadId>, c: ConnId)
    requires Inv(s, h) && c in s.conns && Running(s.conns[c].pump.pc) && PumpPublishes(s.conns[c]).Some?
    ensures var cn, cn' := s.conns[c], PumpNext(s.conns[c]);
      || (cn.slot.TakenByPump? && PumpPublishes(cn).value == Disconnected)
      || (&& cn.slot.Full? && 1 <= cn'.pump.considered <= |cn'.feed.history|
          && Tells(PumpPublishes(cn).value, cn'.feed.history[cn'.pump.considered - 1]))
  {
    var cn := s.conns[c];
    assert ConnOk(cn, s.lane.active == Some(c), HolderCall(s, h), c);
    if cn.slot.Full? {
      PumpStepDelivers(cn);
      FullPumpPublishesTruly(cn);
    }
  }

  /**
    A pump changes the published state to Connected only for an engine state that is up, to
    Connecting only for one that is dialling, and to Disconnected only for one that is down or
    because it took the connection itself.
   */
  lemma PumpPublishesOnlyTheTruth(r: Run, i: nat, c: ConnId)
    requires ValidRun(r) && i < |r.steps| && r.steps[i] == PumpStep(c)
    requires r.states[i + 1].published != r.states[i].published
    ensures c in r.states[i].conns && c in r.states[i + 1].conns
    ensures var cn, cn' := r.states[i].conns[c], r.states[i + 1].conns[c];
      || (cn.slot.TakenByPump? && r.states[i + 1].published == Disconnected)
      || (&& cn.slot.Full? && 1 <= cn'.pump.considered <= |cn'.feed.history|
          && Tells(r.states[i + 1].published, cn'.feed.history[cn'.pump.considered - 1]))
  {
    var h := RunInv(r, i);
    assert StepAt(r, i);
    PumpPublishesTruly(r.states[i], h, c);
  }

  /**
    A raised certificate failure is never lost: until someone takes the connection it is queued,
    in hand, retained, still with the sender, or already making the pump claim the connection.
   */
  lemma FatalIsNotLost(r: Run, i: nat, c: ConnId)
    requires ValidRun(r) && i < |r.states| && c in r.states[i].conns
    requires r.states[i].conns[c].slot.Full? && r.states[i].conns[c].feed.raised
    ensures FatalOnItsWay(r.states[i].conns[c]) || r.states[i].conns[c].pump.pc.Claim?
  {
    var h := RunInv(r, i);
    assert FatalKept(r.states[i].conns[c]);
  }

  // ---------------------------------------------------------------------------------------
  // Ownership

  /** The step by which an installed connection of `u` may leave the lane. */
  predicate Leaves(s: State, step: Step, c: ConnId, u: Uid) {
    || (step.Caller? && step.t in s.callers
        && var call := s.callers[step.t];
           call == ConnectAdmit(u) || call == DisconnectAdmit(u) || call.DrainWait?)
    || (step == PumpStep(c) && c in s.conns && s.conns[c].slot.TakenByPump? && s.conns[c].pump.pc.RetireLane?)
  }

  predicate InstalledFor(s: State, c: ConnId, u: Uid) {
    s.lane.active == Some(c) && s.lane.owner == Some(u)
  }

  lemma StepKeepsInstalled(s: State, h: Option<ThreadId>, step: Step, c: ConnId, u: Uid)
    requires Inv(s, h) && Enabled(s, step) && InstalledFor(s, c, u)
    ensures InstalledFor(Next(s, step), c, u) || Leaves(s, step, c, u)
  {
    assert h.None?;
    if step.Caller? {
      assert WindowOf(s.callers[step.t]).None?;
    }
    if step.PumpStep? {
      OneHeld(s, h, step.c, c);
      assert ConnOk(s.conns[c], true, HolderCall(s, h), c);
    }
  }

  lemma RunKeepsInstalled(r: Run, i: nat, c: ConnId, u: Uid)
    requires ValidRun(r) && i < |r.steps| && InstalledFor(r.states[i], c, u)
    ensures InstalledFor(r.states[i + 1], c, u) || Leaves(r.states[i], r.steps[i], c, u)
  {
    var h := RunInv(r, i);
    assert StepAt(r, i);
    StepKeepsInstalled(r.states[i], h, r.steps[i], c, u);
  }

  /** The step at which an installed connection leaves. */
  ghost predicate LeftAt(r: Run, k: nat, c: ConnId, u: Uid) {
    && k < |r.steps| && k < |r.states|
    && InstalledFor(r.states[k], c, u) && Leaves(r.states[k], r.steps[k], c, u)
  }

  /**
    Owner isolation: a lane installed for `u` is still `u`'s at any later point of the run,
    unless in between it left by a call of `u`, by a drain, or by its own pump's claim.
   */
  lemma {:induction false} OwnerIsolation(r: Run, i: nat, j: nat, c: ConnId, u: Uid)
    requires ValidRun(r) && i <= j < |r.states| && InstalledFor(r.states[i], c, u)
    ensures InstalledFor(r.states[j], c, u)
            || exists k :: i <= k < j && LeftAt(r, k, c, u)
    decreases j
  {
    if i < j {
      OwnerIsolation(r, i, j - 1, c, u);
      if InstalledFor(r.states[j - 1], c, u) {
        RunKeepsInstalled(r, j - 1, c, u);
        assert InstalledFor(r.states[j], c, u) || LeftAt(r, j - 1, c, u);
      }
    }
  }

  /** A connect or disconnect by anyone but the owner of an installed lane changes nothing at all. */
  lemma ForeignCallChangesNothing(r: Run, i: nat, c: ConnId, u: Uid)
    requires ValidRun(r) && i < |r.steps| && InstalledFor(r.states[i], c, u)
    requires r.steps[i].Caller? && r.steps[i].t in r.states[i].callers
    requires var call := r.states[i].callers[r.steps[i].t];
      (call.ConnectAdmit? || call.DisconnectAdmit?) && call.uid != u
    ensures r.states[i + 1] == Finished(r.states[i], r.steps[i].t)
  {
    var h := RunInv(r, i);
    assert StepAt(r, i);
    assert FlagsOk(r.states[i], h);
  }

  /** A failed connect leaves the lane open: no owner, no entry, no flag. */
  lemma FailedConnectLeavesNoOwner(r: Run, i: nat)
    requires ValidRun(r) && i < |r.steps| && r.steps[i].Caller?
    requires r.steps[i].t in r.states[i].callers && r.states[i].callers[r.steps[i].t].FailClear?
    ensures r.states[i + 1].lane == EMPTY_LANE
  {
    var h := RunInv(r, i);
    assert StepAt(r, i);
    assert WindowOf(r.states[i].callers[r.steps[i].t]).Some?;
  }

  // ---------------------------------------------------------------------------------------
  // What a successful return means

  ghost predicate AllDown(s: State) {
    forall c :: c in s.conns ==> !Live(s.conns[c]) && s.conns[c].pump.pc.Exited?
  }

  /** The step by which a disconnect call returns success. */
  predicate DisconnectReturns(s: State, step: Step) {
    && step.Caller? && step.t in s.callers
    && match s.callers[step.t] {
         case ClearDisconnecting => true
         case DisconnectAdmit(_) =>
           !s.draining && !s.lane.reconnecting && !s.lane.disconnecting && s.lane.active.None?
         case _ => false
       }
  }

  lemma NothingHeldIsAllDown(s: State, h: Option<ThreadId>)
    requires Structure(s, h) && s.lane.active.None?
    requires HolderCall(s, h).Some? ==> Target(HolderCall(s, h).value).None?
    ensures AllDown(s)
  {
    forall c | c in s.conns ensures !Live(s.conns[c]) && s.conns[c].pump.pc.Exited? {
      assert ConnOk(s.conns[c], false, HolderCall(s, h), c);
    }
  }

  lemma DisconnectStepIsDone(s: State, h: Option<ThreadId>, step: Step)
    requires Inv(s, h) && Enabled(s, step) && DisconnectReturns(s, step)
    ensures Next(s, step).lane == EMPTY_LANE && AllDown(Next(s, step))
    ensures Next(s, step).published == Disconnected && step.t !in Next(s, step).callers
  {
    assert WindowOf(s.callers[step.t]).Some? ==> h == Some(step.t);
    assert h.Some? ==> Drainer(s.callers[h.value]) ==> s.draining;
    NothingHeldIsAllDown(s, h);
  }

  /**
    When a disconnect returns success its teardown is complete: no connection is live, no pump
    runs, the lane is empty and free, and Disconnected is published.
   */
  lemma DisconnectIsDone(r: Run, i: nat)
    requires ValidRun(r) && i < |r.steps| && DisconnectReturns(r.states[i], r.steps[i])
    ensures r.states[i + 1].lane == EMPTY_LANE && AllDown(r.states[i + 1])
    ensures r.states[i + 1].published == Disconnected
  {
    var h := RunInv(r, i);
    assert StepAt(r, i);
    DisconnectStepIsDone(r.states[i], h, r.steps[i]);
  }

  /**
    When a connect returns success, its connection is installed for the caller's uid and is the
    only live one, and no other pump runs.
   */
  lemma ConnectInstalls(r: Run, i: nat, uid: Uid, c: ConnId)
    requires ValidRun(r) && i < |r.steps| && r.steps[i].Caller?
    requires r.steps[i].t in r.states[i].callers && r.states[i].callers[r.steps[i].t] == Install(uid, c)
    ensures var s := r.states[i + 1];
      && InstalledFor(s, c, uid) && !DrainWaits(s.lane)
      && c in s.conns && s.conns[c].slot.Full? && Live(s.conns[c]) && s.conns[c].pump.pc.Receive?
      && (forall d :: d in s.conns && d != c ==> !Live(s.conns[d]) && s.conns[d].pump.pc.Exited?)
  {
    var h := RunInv(r, i);
    assert StepAt(r, i);
    var s := r.states[i];
    assert WindowOf(s.callers[r.steps[i].t]).Some?;
    forall d | d in s.conns && d != c ensures !Live(s.conns[d]) && s.conns[d].pump.pc.Exited? {
      assert ConnOk(s.conns[d], false, HolderCall(s, h), d);
    }
  }
}
