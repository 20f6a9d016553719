/**
  Convergence: when the engine goes quiet, the pump alone brings the published state up to the
  engine's latest one, or takes the connection down if the engine died or raised a fatal.
 */
module LaneConvergence {
  import opened Wrappers
  import opened Feed
  import opened Pump
  import opened PumpProofs
  import opened PumpConvergence
  import opened Lane
  import opened LaneInvariant
  import opened LanePublishing
  import opened LaneSafety
  import opened LaneProgress
  import opened LaneLiveness

  /** `r'` continues `r` by steps of the pump of `c` alone. */
  ghost predicate ContinuesByPump(r: Run, r': Run, c: ConnId) {
    && ValidRun(r) && ValidRun(r') && |r.steps| <= |r'.steps|
    && r.steps == r'.steps[..|r.steps|] && r.states == r'.states[..|r.states|]
    && forall i :: |r.steps| <= i < |r'.steps| ==> r'.steps[i] == PumpStep(c)
  }

  /** What the pump of a quiet engine arrives at. */
  predicate Arrived(s: State, c: ConnId, feed: Feed) {
    && c in s.conns
    && if feed.raised || feed.closed then s.conns[c].slot.TakenByPump?
       else Settled(s.conns[c]) && s.conns[c].feed.history == feed.history
            && (feed.history != [] ==> Tells(s.published, feed.history[|feed.history| - 1]))
  }

  lemma SettledHasArrived(r: Run, c: ConnId)
    requires ValidRun(r) && c in Last(r).conns && Settled(Last(r).conns[c])
    ensures Arrived(Last(r), c, Last(r).conns[c].feed)
  {
    var h := RunInv(r, |r.steps|);
    SettledIsCurrent(Last(r).conns[c]);
  }

  lemma PumpComesCloser(s: State, h: Option<ThreadId>, c: ConnId)
    requires Inv(s, h) && c in s.conns && s.conns[c].slot.Full? && s.conns[c].feed.sender.Ready?
    requires !Settled(s.conns[c])
    ensures Enabled(s, PumpStep(c))
    ensures var cn, cn' := s.conns[c], Next(s, PumpStep(c)).conns[c];
      && cn'.feed.history == cn.feed.history && cn'.feed.raised == cn.feed.raised
      && cn'.feed.closed == cn.feed.closed && cn'.feed.sender.Ready?
      && if cn'.slot.Full? then
           |InFlight(cn')| < |InFlight(cn)| || (|InFlight(cn')| == |InFlight(cn)| && Distance(cn') < Distance(cn))
         else cn'.slot.TakenByPump? && (cn.feed.raised || cn.feed.closed)
  {
    var cn := s.conns[c];
    assert ConnOk(cn, s.lane.active == Some(c), HolderCall(s, h), c);
    StepKeepsFeedFacts(cn);
    if PumpNext(cn).slot.Full? {
      ComesCloser(cn);
    } else {
      TakenForCause(cn);
    }
  }

  /**
    From any reachable state with an untaken connection, if the engine stays quiet and nobody
    interferes, finitely many steps of its pump lead to the published state being the mapping
    of the engine's latest state, or to the pump having taken the connection, the latter
    exactly if the engine has died or raised a certificate failure.
   */
  lemma {:induction false} QuietEngineConverges(r: Run, c: ConnId) returns (r': Run)
    requires ValidRun(r) && c in Last(r).conns
    requires Last(r).conns[c].slot.Full? && Last(r).conns[c].feed.sender.Ready?
    ensures ContinuesByPump(r, r', c) && Arrived(Last(r'), c, Last(r).conns[c].feed)
    decreases |InFlight(Last(r).conns[c])|, Distance(Last(r).conns[c])
  {
    if Settled(Last(r).conns[c]) {
      r' := r;
      SettledHasArrived(r, c);
    } else {
      var h := RunInv(r, |r.steps|);
      PumpComesCloser(Last(r), h, c);
      var next := Play(r, PumpStep(c));
      if Last(next).conns[c].slot.Full? {
        r' := QuietEngineConverges(next, c);
        Composes(r, next, r', c);
      } else {
        r' := next;
      }
    }
  }

  lemma Composes(r: Run, q: Run, r': Run, c: ConnId)
    requires ContinuesByPump(r, q, c) && ContinuesByPump(q, r', c)
    ensures ContinuesByPump(r, r', c)
  {
    assert r'.steps[..|r.steps|] == q.steps[..|r.steps|];
    assert r'.states[..|r.states|] == q.states[..|r.states|];
  }

  // ---------------------------------------------------------------------------------------
  // The same in every fair behaviour, with everyone else going on

  lemma InvMoment(b: Behavior, n: nat)
    requires ValidBehavior(b) && Inv(b.state(n), HolderOf(b.state(n)))
    ensures Inv(b.state(n + 1), HolderOf(b.state(n + 1)))
  {
    assert OneStep(b, n);
    if b.step(n).Some? {
      var s, step := b.state(n), b.step(n).value;
      StepKeepsInv(s, HolderOf(s), step);
      HolderIsUnique(b.state(n + 1), NextHolder(HolderOf(s), b.state(n + 1), step));
    }
  }

  lemma {:induction false} BehaviorInv(b: Behavior, n: nat)
    requires ValidBehavior(b)
    ensures Inv(b.state(n), HolderOf(b.state(n)))
  {
    if n == 0 {
      InitInv(b.state(0));
      HolderIsUnique(b.state(0), None);
    } else {
      BehaviorInv(b, n - 1);
      InvMoment(b, n - 1);
    }
  }

  predicate FullAt(b: Behavior, n: nat, c: ConnId) {
    c in b.state(n).conns && b.state(n).conns[c].slot.Full?
  }

  predicate EngineActs(b: Behavior, n: nat, c: ConnId) {
    b.step(n).Some? && b.step(n).value.EngineStep? && b.step(n).value.c == c
  }

  /** The engine of `c` announces nothing more from moment `n` on. */
  ghost predicate QuietFrom(b: Behavior, n: nat, c: ConnId) {
    forall m :: n <= m ==> !EngineActs(b, m, c)
  }

  /** Nobody takes the connection of `c` from moment `n` on. */
  ghost predicate FullFrom(b: Behavior, n: nat, c: ConnId) {
    forall m :: n <= m ==> FullAt(b, m, c)
  }

  lemma CallerOnFull(s: State, h: Option<ThreadId>, t: ThreadId, outcome: Outcome, c: ConnId)
    requires Structure(s, h) && CallerEnabled(s, t, outcome) && c in s.conns && s.conns[c].slot.Full?
    requires c in CallerNext(s, t, outcome).conns && CallerNext(s, t, outcome).conns[c].slot.Full?
    ensures CallerNext(s, t, outcome).conns[c] == s.conns[c]
  {
    CallerOnUntaken(s, h, t, outcome, c);
  }

  /** Moment by moment only its own pump moves an untaken connection with a quiet engine. */
  lemma QuietMoment(b: Behavior, n: nat, c: ConnId)
    requires ValidBehavior(b) && FullAt(b, n, c) && FullAt(b, n + 1, c) && !EngineActs(b, n, c)
    ensures Running(b.state(n).conns[c].pump.pc)
    ensures b.state(n + 1).conns[c] ==
              if ActsAt(b, n, PumpOf(c)) then PumpNext(b.state(n).conns[c]) else b.state(n).conns[c]
  {
    BehaviorStructure(b, n);
    var s := b.state(n);
    assert ConnOk(s.conns[c], s.lane.active == Some(c), HolderCall(s, HolderOf(s)), c);
    assert OneStep(b, n);
    if b.step(n).Some? && b.step(n).value.Caller? {
      CallerOnFull(s, HolderOf(s), b.step(n).value.t, b.step(n).value.outcome, c);
    }
  }

  lemma {:induction false} PumpUntil(b: Behavior, n: nat, m: nat, c: ConnId) returns (k: nat)
    requires ValidBehavior(b) && QuietFrom(b, n, c) && FullFrom(b, n, c) && n <= m
    ensures n <= k <= m && (k == m || ActsAt(b, k, PumpOf(c)))
    ensures FullAt(b, n, c) && FullAt(b, k, c) && b.state(k).conns[c] == b.state(n).conns[c]
    ensures ActorEnabled(b.state(k), PumpOf(c))
    decreases m - n
  {
    assert FullAt(b, n, c) && FullAt(b, n + 1, c) && !EngineActs(b, n, c);
    QuietMoment(b, n, c);
    if n == m || ActsAt(b, n, PumpOf(c)) {
      k := n;
    } else {
      k := PumpUntil(b, n + 1, m, c);
    }
  }

  lemma NextPumpAct(b: Behavior, n: nat, c: ConnId) returns (k: nat)
    requires ValidBehavior(b) && Fair(b) && QuietFrom(b, n, c) && FullFrom(b, n, c)
    ensures n <= k && ActsAt(b, k, PumpOf(c))
    ensures FullAt(b, n, c) && FullAt(b, k, c) && b.state(k).conns[c] == b.state(n).conns[c]
  {
    assert NotStarved(b, n, PumpOf(c));
    if m :| n <= m && ActsAt(b, m, PumpOf(c)) {
      k := PumpUntil(b, n, m, c);
    } else {
      var m :| n <= m && DisabledFrom(b, m, PumpOf(c));
      k := PumpUntil(b, n, m, c);
    }
  }

  /** One act of the pump, and what it brings. */
  lemma OnePumpAct(b: Behavior, n: nat, c: ConnId) returns (k: nat)
    requires ValidBehavior(b) && Fair(b) && QuietFrom(b, n, c) && FullFrom(b, n, c)
    requires FullAt(b, n, c) && b.state(n).conns[c].feed.sender.Ready? && !Settled(b.state(n).conns[c])
    ensures n < k && FullAt(b, k, c)
    ensures var cn, cn' := b.state(n).conns[c], b.state(k).conns[c];
      && SameFeed(cn, cn')
      && (|InFlight(cn')| < |InFlight(cn)| || (|InFlight(cn')| == |InFlight(cn)| && Distance(cn') < Distance(cn)))
  {
    k := NextPumpAct(b, n, c);
    assert FullAt(b, k + 1, c) && !EngineActs(b, k, c);
    QuietMoment(b, k, c);
    BehaviorInv(b, k);
    PumpComesCloser(b.state(k), HolderOf(b.state(k)), c);
    k := k + 1;
  }

  /** What a pump leaves as it is in its feed. */
  predicate SameFeed(cn: Conn, cn': Conn) {
    && cn'.feed.history == cn.feed.history && cn'.feed.raised == cn.feed.raised
    && cn'.feed.closed == cn.feed.closed && cn'.feed.sender == cn.feed.sender
  }

  lemma {:induction false} EventuallySettles(b: Behavior, n: nat, c: ConnId) returns (k: nat)
    requires ValidBehavior(b) && Fair(b) && QuietFrom(b, n, c) && FullFrom(b, n, c)
    requires FullAt(b, n, c) && b.state(n).conns[c].feed.sender.Ready?
    ensures n <= k && FullAt(b, k, c) && Settled(b.state(k).conns[c])
    ensures SameFeed(b.state(n).conns[c], b.state(k).conns[c])
    decreases |InFlight(b.state(n).conns[c])|, Distance(b.state(n).conns[c])
  {
    if Settled(b.state(n).conns[c]) {
      k := n;
    } else {
      k := OnePumpAct(b, n, c);
      k := EventuallySettles(b, k, c);
    }
  }

  /** The pump of `c` has decided on the latest of the states in `history`. */
  predicate CurrentAt(b: Behavior, n: nat, c: ConnId, history: seq<EngineState>) {
    && FullAt(b, n, c) && b.state(n).conns[c].feed.history == history
    && b.state(n).conns[c].pump.considered == |history|
  }

  lemma StillCurrent(b: Behavior, n: nat, c: ConnId, history: seq<EngineState>)
    requires ValidBehavior(b) && CurrentAt(b, n, c, history) && FullAt(b, n + 1, c) && !EngineActs(b, n, c)
    ensures CurrentAt(b, n + 1, c, history)
  {
    QuietMoment(b, n, c);
    if ActsAt(b, n, PumpOf(c)) {
      BehaviorInv(b, n);
      BehaviorInv(b, n + 1);
      KeepsCurrent(b.state(n).conns[c]);
    }
  }

  lemma KeepsCurrent(cn: Conn)
    requires Delivering(cn) && cn.slot.Full? && Looping(cn.pump.pc) && PumpNext(cn).slot.Full?
    requires cn.pump.considered == |cn.feed.history|
    ensures PumpNext(cn).pump.considered == |cn.feed.history| && PumpNext(cn).feed.history == cn.feed.history
  {
    PumpStepDelivers(cn);
    StepKeepsFeedFacts(cn);
  }

  lemma {:induction false} CurrentFrom(b: Behavior, n: nat, m: nat, c: ConnId, history: seq<EngineState>)
    requires ValidBehavior(b) && QuietFrom(b, n, c) && FullFrom(b, n, c) && CurrentAt(b, n, c, history) && n <= m
    ensures CurrentAt(b, m, c, history)
    decreases m
  {
    if n < m {
      CurrentFrom(b, n, m - 1, c, history);
      assert FullAt(b, m, c) && !EngineActs(b, m - 1, c);
      StillCurrent(b, m - 1, c, history);
    }
  }

  lemma CurrentIsPublished(b: Behavior, m: nat, c: ConnId, history: seq<EngineState>)
    requires ValidBehavior(b) && CurrentAt(b, m, c, history) && history != []
    ensures Tells(b.state(m).published, history[|history| - 1])
  {
    BehaviorInv(b, m);
    assert LocalsOk(b.state(m).conns[c]);
  }

  /** From moment `k` on the published state tells the engine state `state`. */
  ghost predicate TellsFrom(b: Behavior, k: nat, state: EngineState) {
    forall m :: k <= m ==> Tells(b.state(m).published, state)
  }

  lemma SettledMoment(b: Behavior, n: nat, c: ConnId)
    requires ValidBehavior(b) && FullAt(b, n, c) && Settled(b.state(n).conns[c])
    ensures CurrentAt(b, n, c, b.state(n).conns[c].feed.history)
    ensures !b.state(n).conns[c].feed.raised && !b.state(n).conns[c].feed.closed
  {
    BehaviorInv(b, n);
    SettledIsCurrent(b.state(n).conns[c]);
  }

  /**
    In every behaviour that starves nobody, whatever else goes on: once the engine of an untaken
    connection is quiet, someone takes the connection, or from some moment on and for ever the
    published state is the mapping of the engine's latest one. If the engine has died or raised
    a certificate failure, the connection is taken.
   */
  lemma EventuallyCurrent(b: Behavior, n: nat, c: ConnId) returns (k: nat)
    requires ValidBehavior(b) && Fair(b) && QuietFrom(b, n, c)
    requires FullAt(b, n, c) && b.state(n).conns[c].feed.sender.Ready?
    ensures n <= k
    ensures var feed := b.state(n).conns[c].feed;
      || !FullAt(b, k, c)
      || (&& !feed.raised && !feed.closed
          && (feed.history != [] ==> TellsFrom(b, k, feed.history[|feed.history| - 1])))
  {
    if m :| n <= m && !FullAt(b, m, c) {
      k := m;
    } else {
      assert FullFrom(b, n, c);
      k := EventuallySettles(b, n, c);
      SettledMoment(b, k, c);
      var history := b.state(n).conns[c].feed.history;
      if history != [] {
        forall m | k <= m ensures Tells(b.state(m).published, history[|history| - 1]) {
          CurrentFrom(b, k, m, c, history);
          CurrentIsPublished(b, m, c, history);
        }
      }
    }
  }
}
