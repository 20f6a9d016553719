/** Runs that show why the idle property stops where a drain is requested. */
module LaneWitness {
  import opened Wrappers
  import opened Feed
  import opened Pump
  import opened Lane
  import opened LaneDrain

  const UP_FEED := Feed([Up], [], 0, false, false, Ready, false)

  const UP_CONN := Conn(Full, 0, UP_FEED, Locals(Reconcile(Criticals, After), Some(Connected), 0, false, None, 1))

  const UP_STATE := State(LaneState(Some(0), Some(7), false, false, false), false, Connected, map[0 := UP_CONN], map[])

  const INSTALLED_STATE :=
    State(LaneState(Some(0), Some(7), false, false, false), false, Disconnected,
          map[0 := At(FRESH_CONN.(slot := Full), Receive)], map[])

  /** A connect that succeeds. */
  lemma InstalledRun() returns (r: Run)
    ensures ValidRun(r) && Last(r) == INSTALLED_STATE
  {
    r := Run([State(EMPTY_LANE, false, Disconnected, map[], map[])], []);
    r := Play(r, Begin(1, ConnectAdmit(7)));
    r := Play(r, Caller(1, Failed));
    r := Play(r, Caller(1, Failed));
    r := Play(r, Caller(1, Started(0)));
    r := Play(r, Caller(1, Failed));
  }

  /** The engine then reports that it is up, and the pump publishes it. */
  lemma ConnectedRun() returns (r: Run)
    ensures ValidRun(r) && Last(r) == UP_STATE
  {
    r := InstalledRun();
    r := Play(r, EngineStep(0, EmitState(Up)));
    r := Play(r, EngineStep(0, Forward));
    assert Last(r).conns[0].feed == UP_FEED.(queue := [StateChange(1)]);
    r := Play(r, PumpStep(0));
    r := Play(r, PumpStep(0));
    r := Play(r, PumpStep(0));
    r := Play(r, PumpStep(0));
    assert Last(r).conns[0] == UP_CONN;
  }

  const CLOSED_CONN :=
    Conn(TakenByTeardown, 1, UP_FEED, Locals(Exited, Some(Connected), 0, false, None, 1))

  /** A drain takes the connection and disconnects it. */
  lemma JoiningRun() returns (r: Run)
    ensures ValidRun(r)
    ensures Last(r) == State(EMPTY_LANE.(drainInProgress := true), true, Connected,
                             map[0 := UP_CONN.(slot := TakenByTeardown, disconnects := 1)],
                             map[2 := Join(ForDrain, 0)])
  {
    r := ConnectedRun();
    r := Play(r, Begin(2, DrainFlag));
    r := Play(r, Caller(2, Failed));
    r := Play(r, Caller(2, Failed));
    r := Play(r, Caller(2, Failed));
    r := Play(r, Caller(2, Failed));
  }

  /** The pump sees its slot empty and exits; the drain returns. */
  lemma DrainedRun() returns (r: Run)
    ensures ValidRun(r) && r.steps != [] && DrainReturns(r.states[|r.steps| - 1], r.steps[|r.steps| - 1])
    ensures Last(r) == State(EMPTY_LANE, true, Connected, map[0 := CLOSED_CONN], map[])
  {
    r := JoiningRun();
    r := Play(r, PumpStep(0));
    r := Play(r, PumpStep(0));
    assert Last(r).conns[0] == CLOSED_CONN;
    r := Play(r, Caller(2, Failed));
    r := Play(r, Caller(2, Failed));
  }

  /** After a drain the idle lane can read Connected for ever: the drain publishes nothing. */
  lemma DrainMayLeaveConnected()
    ensures exists r :: ValidRun(r) && r.steps != [] && DrainReturns(r.states[|r.steps| - 1], r.steps[|r.steps| - 1])
                        && Last(r).lane == EMPTY_LANE && Last(r).published == Connected
  {
    var r := DrainedRun();
  }

  const JOINING_STATE :=
    State(EMPTY_LANE.(reconnecting := true), true, Disconnecting,
          map[0 := UP_CONN.(slot := TakenByTeardown, disconnects := 1)],
          map[2 := Join(ForConnect(7), 0), 3 := DrainWait])

  /** A replacing connect announces and closes; then a drain sets its flag and waits. */
  lemma ReplacingRun() returns (r: Run)
    ensures ValidRun(r) && Last(r) == JOINING_STATE
  {
    r := ConnectedRun();
    r := Play(r, Begin(2, ConnectAdmit(7)));
    r := Play(r, Caller(2, Failed));
    r := Play(r, Caller(2, Failed));
    r := Play(r, Caller(2, Failed));
    r := Play(r, Caller(2, Failed));
    r := Play(r, Begin(3, DrainFlag));
    r := Play(r, Caller(3, Failed));
  }

  /** The pump exits, the connect joins it, and its re-check refuses. */
  lemma RefusedRun() returns (r: Run)
    ensures ValidRun(r)
    ensures Last(r) == State(EMPTY_LANE, true, Disconnecting, map[0 := CLOSED_CONN], map[3 := DrainWait])
  {
    r := ReplacingRun();
    r := Play(r, PumpStep(0));
    r := Play(r, PumpStep(0));
    assert Last(r).conns[0] == CLOSED_CONN;
    r := Play(r, Caller(2, Failed));
    r := Play(r, Caller(2, Failed));
  }

  /** A drain that finds the lane empty behind a refused re-check leaves Disconnecting for ever. */
  lemma DrainMayLeaveDisconnecting()
    ensures exists r :: ValidRun(r) && r.steps != [] && DrainReturns(r.states[|r.steps| - 1], r.steps[|r.steps| - 1])
                        && Last(r).lane == EMPTY_LANE && Last(r).published == Disconnecting
  {
    var r := RefusedRun();
    var r' := Play(r, Caller(3, Failed));
    assert r'.states[|r'.steps| - 1] == Last(r);
  }
}
