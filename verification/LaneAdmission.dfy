/** Who is admitted, what an admission does, and that the owner's disconnect is carried through. */
module LaneAdmission {
  import opened Wrappers
  import opened Feed
  import opened Pump
  import opened Lane
  import opened LaneInvariant
  import opened LaneSafety
  import opened LaneProgress
  import opened LaneLiveness
  import opened LaneConvergence

  /** Step `i` is caller `t`'s, at `call`. */
  predicate CallsAt(r: Run, i: nat, t: ThreadId, call: Call) {
    && i < |r.steps| && i < |r.states| && r.steps[i].Caller? && r.steps[i].t == t
    && t in r.states[i].callers && r.states[i].callers[t] == call
  }

  lemma InstalledIsFree(s: State, h: Option<ThreadId>, c: ConnId, u: Uid)
    requires Inv(s, h) && InstalledFor(s, c, u)
    ensures s.lane == EMPTY_LANE.(active := Some(c), owner := Some(u))
  {
    assert FlagsOk(s, h);
  }

  lemma WindowlessIsFree(s: State, h: Option<ThreadId>)
    requires Inv(s, h) && !s.draining && !s.lane.reconnecting && !s.lane.disconnecting
    ensures h.None? && !s.lane.drainInProgress
  {
    assert h.Some? && Drainer(s.callers[h.value]) ==> s.draining;
  }

  /**
    The owner is heard: without a drain, a disconnect by the uid a lane is installed for takes
    the entry and arms the window, whoever the uid is.
   */
  lemma OwnerDisconnectIsAdmitted(r: Run, i: nat, t: ThreadId, c: ConnId, u: Uid)
    requires ValidRun(r) && CallsAt(r, i, t, DisconnectAdmit(u))
    requires InstalledFor(r.states[i], c, u) && !r.states[i].draining
    ensures r.states[i + 1] ==
            r.states[i].(lane := EMPTY_LANE.(disconnecting := true),
                         callers := r.states[i].callers[t := Retire(ForDisconnect, c)])
  {
    var h := RunInv(r, i);
    assert StepAt(r, i);
    InstalledIsFree(r.states[i], h, c, u);
  }

  /** A disconnect does something exactly if no drain is requested and the lane is its caller's. */
  lemma DisconnectAdmissionExact(r: Run, i: nat, t: ThreadId, u: Uid)
    requires ValidRun(r) && CallsAt(r, i, t, DisconnectAdmit(u))
    ensures var s, s' := r.states[i], r.states[i + 1];
      && (s'.lane != s.lane <==> !s.draining && s.lane.owner == Some(u))
      && (s'.lane == s.lane ==> s' == Finished(s, t))
  {
    var h := RunInv(r, i);
    assert StepAt(r, i);
    if r.states[i].lane.owner.Some? {
      InstalledIsFree(r.states[i], h, r.states[i].lane.active.value, r.states[i].lane.owner.value);
    }
  }

  /**
    A connect of any uid is admitted exactly if no drain is requested, neither user window is
    open and nobody else owns the lane; it then holds the window over an empty lane and goes on
    to the entry it took, or to its re-check. Otherwise it changes nothing.
   */
  lemma ConnectAdmissionExact(r: Run, i: nat, t: ThreadId, u: Uid)
    requires ValidRun(r) && CallsAt(r, i, t, ConnectAdmit(u))
    ensures var s, s' := r.states[i], r.states[i + 1];
      if !s.draining && !s.lane.reconnecting && !s.lane.disconnecting && (s.lane.owner in {None, Some(u)}) then
        s' == s.(lane := EMPTY_LANE.(reconnecting := true),
                 callers := s.callers[t := if s.lane.active.Some? then Retire(ForConnect(u), s.lane.active.value)
                                           else Recheck(u)])
      else s' == Finished(s, t)
  {
    var h := RunInv(r, i);
    assert StepAt(r, i);
    var s := r.states[i];
    if !s.draining && !s.lane.reconnecting && !s.lane.disconnecting {
      WindowlessIsFree(s, h);
    }
  }

  /** The uid a connect call is made for, all the way. */
  function ConnectUid(call: Call): Option<Uid> {
    match call
    case ConnectAdmit(uid) => Some(uid)
    case Retire(ForConnect(uid), _) => Some(uid)
    case Announce(ForConnect(uid), _, _) => Some(uid)
    case Close(ForConnect(uid), _, _) => Some(uid)
    case Join(ForConnect(uid), _) => Some(uid)
    case Recheck(uid) => Some(uid)
    case Attempt(uid) => Some(uid)
    case Install(uid, _) => Some(uid)
    case _ => None
  }

  lemma StepKeepsUid(s: State, step: Step, t: ThreadId)
    requires Enabled(s, step) && t in s.callers && t in Next(s, step).callers
    ensures ConnectUid(Next(s, step).callers[t]).Some? ==>
              ConnectUid(Next(s, step).callers[t]) == ConnectUid(s.callers[t])
  {
    if step.Caller? && step.t != t {
      OthersUntouched(s, step.t, step.outcome, t);
    }
  }

  /** Caller `t` has been in its call from moment `i` to moment `j`. */
  ghost predicate InCall(r: Run, i: nat, j: nat, t: ThreadId) {
    forall m :: i <= m <= j && m < |r.states| ==> t in r.states[m].callers
  }

  /** A connect goes on, to its installation, for the uid it was called with. */
  lemma {:induction false} ConnectKeepsItsUid(r: Run, i: nat, j: nat, t: ThreadId)
    requires ValidRun(r) && i <= j < |r.states| && InCall(r, i, j, t)
    requires ConnectUid(r.states[j].callers[t]).Some?
    ensures ConnectUid(r.states[i].callers[t]) == ConnectUid(r.states[j].callers[t])
    decreases j
  {
    if i < j {
      assert StepAt(r, j - 1);
      assert t in r.states[j - 1].callers;
      StepKeepsUid(r.states[j - 1], r.steps[j - 1], t);
      ConnectKeepsItsUid(r, i, j - 1, t);
    }
  }

  /** So a connect that was called with `u` and returns success has installed its lane for `u`. */
  lemma ConnectInstallsForItsCaller(r: Run, i: nat, j: nat, t: ThreadId, u: Uid, c: ConnId)
    requires ValidRun(r) && i <= j < |r.steps| && InCall(r, i, j, t)
    requires r.states[i].callers[t] == ConnectAdmit(u)
    requires r.steps[j].Caller? && r.steps[j].t == t
    requires r.states[j].callers[t].Install? && r.states[j].callers[t].c == c
    ensures InstalledFor(r.states[j + 1], c, u) && t !in r.states[j + 1].callers
  {
    ConnectKeepsItsUid(r, i, j, t);
    ConnectInstalls(r, j, u, c);
    assert StepAt(r, j);
  }

  // ---------------------------------------------------------------------------------------
  // The owner's disconnect, to its end

  predicate InDisconnect(s: State, t: ThreadId) { InWindow(s, t, DisconnectWindow) }

  /** A disconnect past its admission goes on until it clears its window. */
  lemma DisconnectGoesOn(s: State, h: Option<ThreadId>, step: Step, t: ThreadId)
    requires Structure(s, h) && Enabled(s, step) && InDisconnect(s, t)
    ensures InDisconnect(Next(s, step), t)
            || (step.Caller? && step.t == t && s.callers[t].ClearDisconnecting?)
  {
    assert h == Some(t);
    if step.Caller? && step.t != t {
      OthersUntouched(s, step.t, step.outcome, t);
    }
  }

  /** The moment at which a disconnect that has returned did so. */
  lemma {:induction false} ReturnMoment(b: Behavior, n: nat, m: nat, t: ThreadId) returns (k: nat)
    requires ValidBehavior(b) && n <= m && InDisconnect(b.state(n), t) && t !in b.state(m).callers
    ensures n <= k < m && InDisconnect(b.state(k), t) && b.state(k).callers[t].ClearDisconnecting?
    ensures ActsAt(b, k, CallerOf(t))
    decreases m - n
  {
    BehaviorStructure(b, n);
    assert OneStep(b, n);
    if b.step(n).Some? {
      DisconnectGoesOn(b.state(n), HolderOf(b.state(n)), b.step(n).value, t);
    }
    if InDisconnect(b.state(n + 1), t) {
      k := ReturnMoment(b, n + 1, m, t);
    } else {
      k := n;
    }
  }

  lemma ConnStays(s: State, step: Step, c: ConnId)
    requires Enabled(s, step) && c in s.conns
    ensures c in Next(s, step).conns
  {
  }

  lemma {:induction false} ConnRemains(b: Behavior, n: nat, m: nat, c: ConnId)
    requires ValidBehavior(b) && n <= m && c in b.state(n).conns
    ensures c in b.state(m).conns
    decreases m
  {
    if n < m {
      ConnRemains(b, n, m - 1, c);
      assert OneStep(b, m - 1);
      if b.step(m - 1).Some? {
        ConnStays(b.state(m - 1), b.step(m - 1).value, c);
      }
    }
  }

  lemma AdmittedMoment(b: Behavior, n: nat, t: ThreadId, c: ConnId, u: Uid)
    requires ValidBehavior(b) && ActsAt(b, n, CallerOf(t)) && t in b.state(n).callers
    requires b.state(n).callers[t] == DisconnectAdmit(u) && InstalledFor(b.state(n), c, u) && !b.state(n).draining
    ensures InDisconnect(b.state(n + 1), t) && UnderwayAt(b, n + 1, t) && c in b.state(n + 1).conns
  {
    BehaviorInv(b, n);
    BehaviorStructure(b, n + 1);
    assert OneStep(b, n);
    InstalledIsFree(b.state(n), HolderOf(b.state(n)), c, u);
    PastAdmission(b.state(n + 1), t);
  }

  lemma ReturnIsDone(b: Behavior, k: nat, t: ThreadId)
    requires ValidBehavior(b) && ActsAt(b, k, CallerOf(t)) && t in b.state(k).callers
    requires b.state(k).callers[t].ClearDisconnecting?
    ensures var s := b.state(k + 1);
      s.lane == EMPTY_LANE && AllDown(s) && s.published == Disconnected && t !in s.callers
  {
    BehaviorInv(b, k);
    assert OneStep(b, k);
    DisconnectStepIsDone(b.state(k), HolderOf(b.state(k)), b.step(k).value);
  }

  /**
    The owner's disconnect is carried through: in every behaviour that starves nobody, once it
    is admitted there is a moment at which it has returned, its connection is disconnected and
    its pump gone, nothing else is live, the lane is free and Disconnected is published.
   */
  lemma OwnerDisconnectCompletes(b: Behavior, n: nat, t: ThreadId, c: ConnId, u: Uid) returns (k: nat)
    requires ValidBehavior(b) && Fair(b) && ActsAt(b, n, CallerOf(t)) && t in b.state(n).callers
    requires b.state(n).callers[t] == DisconnectAdmit(u) && InstalledFor(b.state(n), c, u) && !b.state(n).draining
    ensures n < k && t !in b.state(k).callers
    ensures b.state(k).lane == EMPTY_LANE && AllDown(b.state(k)) && b.state(k).published == Disconnected
    ensures c in b.state(k).conns && b.state(k).conns[c].disconnects == 1
  {
    AdmittedMoment(b, n, t, c, u);
    var m := UnderwayReturns(b, n + 1, t);
    k := ReturnMoment(b, n + 1, m, t);
    ReturnIsDone(b, k, t);
    k := k + 1;
    ConnRemains(b, n + 1, k, c);
    BehaviorStructure(b, k);
    assert ConnOk(b.state(k).conns[c], false, HolderCall(b.state(k), HolderOf(b.state(k))), c);
  }
}
