/**
  A run in which a state is delivered once more after the pump considered it: the queue fills up
  and drops a state, the pump drains it in recovery mode, the engine records a state during the
  quiet reconciliation, and recovery is disarmed before that state is queued.
 */
module RepeatWitness {
  import opened Wrappers
  import opened Feed
  import opened Pump
  import opened Lane
  import opened LaneWitness
  import opened LaneDelivery

  /** One installed connection and no caller. */
  function Alone(cn: Conn, published: VpnState): State {
    State(LaneState(Some(0), Some(7), false, false, false), false, published, map[0 := cn], map[])
  }

  lemma PlayEngine(r: Run, cn: Conn, published: VpnState, step: FeedStep) returns (r': Run)
    requires ValidRun(r) && Last(r) == Alone(cn, published) && FeedEnabled(cn.feed, step)
    ensures ValidRun(r') && Last(r') == Alone(cn.(feed := FeedNext(cn.feed, step)), published)
    ensures r' == Run(r.states + [Last(r')], r.steps + [EngineStep(0, step)])
  {
    r' := Play(r, EngineStep(0, step));
  }

  lemma PlayPump(r: Run, cn: Conn, published: VpnState) returns (r': Run)
    requires ValidRun(r) && Last(r) == Alone(cn, published) && Running(cn.pump.pc) && !cn.pump.pc.RetireLane?
    ensures ValidRun(r')
    ensures Last(r') == Alone(PumpNext(cn), if PumpPublishes(cn).Some? then PumpPublishes(cn).value else published)
    ensures r' == Run(r.states + [Last(r')], r.steps + [PumpStep(0)])
  {
    r' := Play(r, PumpStep(0));
  }

  function Filler(k: nat): seq<Event> { seq(k, _ => OtherEvent) }

  const START := Locals(Receive, None, 0, false, None, 0)

  const FULL_FEED := EMPTY_FEED.(queue := Filler(EVENT_CHANNEL_BOUND))

  function Holding(f: Feed, p: Locals): Conn { Conn(Full, 0, f, p) }

  /** The engine announces other events until `k` of them are queued. */
  lemma {:induction false} FilledRun(k: nat) returns (r: Run)
    requires k <= EVENT_CHANNEL_BOUND
    ensures ValidRun(r) && Last(r) == Alone(Holding(EMPTY_FEED.(queue := Filler(k)), START), Disconnected)
  {
    if k == 0 {
      r := InstalledRun();
    } else {
      r := FilledRun(k - 1);
      var f := EMPTY_FEED.(queue := Filler(k - 1));
      r := PlayEngine(r, Holding(f, START), Disconnected, EmitOther);
      r := PlayEngine(r, Holding(f.(sender := Sending(OtherEvent)), START), Disconnected, Forward);
      assert Filler(k) == Filler(k - 1) + [OtherEvent];
    }
  }

  /** One state recorded and dropped, and `k` other events in the queue. */
  function DroppedFeed(k: nat): Feed { EMPTY_FEED.(history := [Up], queue := Filler(k), drops := 1) }

  lemma DroppedRun() returns (r: Run)
    ensures ValidRun(r) && Last(r) == Alone(Holding(DroppedFeed(EVENT_CHANNEL_BOUND), START), Disconnected)
  {
    r := FilledRun(EVENT_CHANNEL_BOUND);
    r := PlayEngine(r, Holding(FULL_FEED, START), Disconnected, EmitState(Up));
    var f := FULL_FEED.(history := [Up], sender := Sending(StateChange(1)));
    assert FeedNext(FULL_FEED, EmitState(Up)) == f;
    r := PlayEngine(r, Holding(f, START), Disconnected, Forward);
    r := PlayEngine(r, Holding(f.(sender := CountingDrop), START), Disconnected, Account);
  }

  const ARMED := Locals(Receive, Some(Connected), 1, true, None, 1)

  /** A round of the pump that begins with the drop unseen, or with recovery armed. */
  predicate BeforeRound(p: Locals, published: VpnState) {
    p == START || (p == ARMED && published == Connected)
  }

  lemma Dequeues(k: nat, p: Locals)
    requires p == START || p == ARMED
    ensures PumpNext(Holding(DroppedFeed(k + 1), p)) ==
            Holding(DroppedFeed(k), p.(pc := Reconcile(Criticals, Before(OtherEvent))))
  {
    assert Filler(k + 1)[1..] == Filler(k) && Filler(k + 1)[0] == OtherEvent;
  }

  lemma FirstHalf(r: Run, k: nat, p: Locals, published: VpnState) returns (r': Run)
    requires ValidRun(r) && Last(r) == Alone(Holding(DroppedFeed(k + 1), p), published) && BeforeRound(p, published)
    ensures ValidRun(r') && Last(r') == Alone(Holding(DroppedFeed(k), ARMED.(pc := Handle(OtherEvent))), Connected)
  {
    var f := DroppedFeed(k);
    var q := p.(pc := Reconcile(Criticals, Before(OtherEvent)));
    Dequeues(k, p);
    r' := PlayPump(r, Holding(DroppedFeed(k + 1), p), published);
    r' := PlayPump(r', Holding(f, q), published);
    r' := PlayPump(r', Holding(f, q.(pc := Reconcile(Count, Before(OtherEvent)))), published);
    var armed := q.(pc := Reconcile(Snapshot, Before(OtherEvent)), watermark := 1, backlog := true);
    r' := PlayPump(r', Holding(f, armed), published);
  }

  lemma SecondHalf(r: Run, k: nat) returns (r': Run)
    requires ValidRun(r) && Last(r) == Alone(Holding(DroppedFeed(k), ARMED.(pc := Handle(OtherEvent))), Connected)
    ensures ValidRun(r') && Last(r') == Alone(Holding(DroppedFeed(k), ARMED), Connected)
  {
    var f := DroppedFeed(k);
    r' := PlayPump(r, Holding(f, ARMED.(pc := Handle(OtherEvent))), Connected);
    r' := PlayPump(r', Holding(f, ARMED.(pc := Reconcile(Criticals, After))), Connected);
    r' := PlayPump(r', Holding(f, ARMED.(pc := Reconcile(Count, After))), Connected);
    r' := PlayPump(r', Holding(f, ARMED.(pc := Reconcile(Snapshot, After))), Connected);
  }

  /** The pump works the queue off in recovery mode. */
  lemma {:induction false} WorkedOff(r: Run, k: nat, p: Locals, published: VpnState) returns (r': Run)
    requires ValidRun(r) && Last(r) == Alone(Holding(DroppedFeed(k + 1), p), published) && BeforeRound(p, published)
    ensures ValidRun(r') && Last(r') == Alone(Holding(DroppedFeed(0), ARMED), Connected)
    decreases k
  {
    r' := FirstHalf(r, k, p, published);
    r' := SecondHalf(r', k);
    if k > 0 {
      r' := WorkedOff(r', k - 1, ARMED, Connected);
    }
  }

  /** The engine has recorded its second state and not queued it yet. */
  const OWING_FEED := Feed([Up, Down], [], 1, false, false, Sending(StateChange(2)), false)

  const OWING_CONN := Holding(OWING_FEED, Locals(Probe, Some(Disconnected), 1, true, None, 2))

  lemma OwingRun() returns (r: Run)
    ensures ValidRun(r) && Last(r) == Alone(OWING_CONN, Disconnected)
  {
    r := DroppedRun();
    r := WorkedOff(r, EVENT_CHANNEL_BOUND - 1, START, Disconnected);
    var f := DroppedFeed(0);
    r := PlayPump(r, Holding(f, ARMED), Connected);
    r := PlayPump(r, Holding(f, ARMED.(pc := Reconcile(Criticals, Quiet))), Connected);
    r := PlayPump(r, Holding(f, ARMED.(pc := Reconcile(Count, Quiet))), Connected);
    r := PlayEngine(r, Holding(f, ARMED.(pc := Reconcile(Snapshot, Quiet))), Connected, EmitState(Down));
    assert FeedNext(f, EmitState(Down)) == OWING_FEED;
    r := PlayPump(r, Holding(OWING_FEED, ARMED.(pc := Reconcile(Snapshot, Quiet))), Connected);
  }

  const REPEATING_CONN :=
    Holding(OWING_FEED.(queue := [StateChange(2)], sender := Ready),
            Locals(Receive, Some(Disconnected), 1, false, None, 2))

  lemma QueueRepeats()
    ensures Level(REPEATING_CONN) && Undelivered(REPEATING_CONN) == [REPEATING_CONN.pump.considered]
  {
    assert InFlight(REPEATING_CONN) == [StateChange(2)];
  }

  /** A state the pump has considered can be in the queue with recovery off and no drop outstanding. */
  lemma RepetitionHappens()
    ensures exists r :: ValidRun(r) && 0 in Last(r).conns && Level(Last(r).conns[0])
                        && Undelivered(Last(r).conns[0]) == [Last(r).conns[0].pump.considered]
  {
    var r := OwingRun();
    r := PlayPump(r, OWING_CONN, Disconnected);
    var disarmed := OWING_CONN.(pump := OWING_CONN.pump.(pc := Receive, backlog := false));
    r := PlayEngine(r, disarmed, Disconnected, Forward);
    QueueRepeats();
    assert Last(r).conns[0] == REPEATING_CONN;
  }
}
