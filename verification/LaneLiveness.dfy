/** Every call returns, in every infinite behaviour in which no actor is starved. */
module LaneLiveness {
  import opened Wrappers
  import opened Pump
  import opened Lane
  import opened LaneInvariant
  import opened LaneStructure
  import opened LaneProgress

  /** An infinite behaviour; `None` is a moment in which nothing in the model moves. */
  datatype Behavior = Behavior(state: nat -> State, step: nat -> Option<Step>)

  ghost predicate ValidBehavior(b: Behavior) {
    && Init(b.state(0))
    && forall n :: OneStep(b, n)
  }

  ghost predicate OneStep(b: Behavior, n: nat) {
    match b.step(n)
    case None => b.state(n + 1) == b.state(n)
    case Some(step) => Enabled(b.state(n), step) && b.state(n + 1) == Next(b.state(n), step)
  }

  predicate ActsAt(b: Behavior, n: nat, a: Actor) {
    b.step(n).Some? && Acts(b.step(n).value, a)
  }

  ghost predicate DisabledFrom(b: Behavior, m: nat, a: Actor) {
    forall k :: m <= k ==> !ActorEnabled(b.state(k), a)
  }

  /** Actor `a` acts again after `n`, or from some point on it never can. */
  ghost predicate NotStarved(b: Behavior, n: nat, a: Actor) {
    || (exists m :: n <= m && ActsAt(b, m, a))
    || (exists m :: n <= m && DisabledFrom(b, m, a))
  }

  /** Strong fairness: locks and the scheduler starve nobody who can go on again and again. */
  ghost predicate Fair(b: Behavior) {
    forall n, a :: NotStarved(b, n, a)
  }

  /** The holder of a state: the caller inside a window, if any. */
  ghost function HolderOf(s: State): Option<ThreadId> {
    if exists t :: t in s.callers && WindowOf(s.callers[t]).Some? then
      var t :| t in s.callers && WindowOf(s.callers[t]).Some?;
      Some(t)
    else None
  }

  lemma HolderIsUnique(s: State, h: Option<ThreadId>)
    requires Structure(s, h)
    ensures HolderOf(s) == h
  {
    if h.Some? {
      assert h.value in s.callers && WindowOf(s.callers[h.value]).Some?;
    }
  }

  lemma {:induction false} BehaviorStructure(b: Behavior, n: nat)
    requires ValidBehavior(b)
    ensures Structure(b.state(n), HolderOf(b.state(n)))
  {
    if n == 0 {
      InitStructure(b.state(0));
      HolderIsUnique(b.state(0), None);
    } else {
      BehaviorStructure(b, n - 1);
      assert OneStep(b, n - 1);
      if b.step(n - 1).Some? {
        var s := b.state(n - 1);
        StepKeepsStructure(s, HolderOf(s), b.step(n - 1).value);
        HolderIsUnique(b.state(n), NextHolder(HolderOf(s), b.state(n), b.step(n - 1).value));
      }
    }
  }

  ghost predicate UnderwayAt(b: Behavior, n: nat, t: ThreadId) { Underway(b.state(n), HolderOf(b.state(n)), t) }

  ghost function WorkAt(b: Behavior, n: nat): nat { Work(b.state(n), HolderOf(b.state(n))) }

  ghost function HelperAt(b: Behavior, n: nat, t: ThreadId): Actor { Helper(b.state(n), HolderOf(b.state(n)), t) }

  ghost function HolderCallAt(b: Behavior, n: nat): Option<Call> { HolderCall(b.state(n), HolderOf(b.state(n))) }

  /** Between `n` and `k` the call `t` returned or its work fell. */
  ghost predicate Advanced(b: Behavior, n: nat, k: nat, t: ThreadId) {
    t !in b.state(k).callers || (UnderwayAt(b, k, t) && WorkAt(b, k) < WorkAt(b, n))
  }

  /** Nothing happened for call `t` between `n` and `k`: same work, same helper. */
  ghost predicate Unmoved(b: Behavior, n: nat, k: nat, t: ThreadId) {
    && UnderwayAt(b, k, t)
    && WorkAt(b, k) == WorkAt(b, n)
    && HelperAt(b, k, t) == HelperAt(b, n, t)
    && HolderCallAt(b, k) == HolderCallAt(b, n)
  }

  lemma OneMoment(b: Behavior, n: nat, t: ThreadId)
    requires ValidBehavior(b) && UnderwayAt(b, n, t)
    ensures Advanced(b, n, n + 1, t) || (Unmoved(b, n, n + 1, t) && !ActsAt(b, n, HelperAt(b, n, t)))
  {
    BehaviorStructure(b, n);
    BehaviorStructure(b, n + 1);
    assert OneStep(b, n);
    if b.step(n).Some? {
      var s, step := b.state(n), b.step(n).value;
      StepWorks(s, HolderOf(s), step, t);
      StepKeepsStructure(s, HolderOf(s), step);
      HolderIsUnique(b.state(n + 1), NextHolder(HolderOf(s), b.state(n + 1), step));
    }
  }

  /** Up to moment `m` the call advanced at some point, or nothing moved for it. */
  lemma {:induction false} AdvanceOrWait(b: Behavior, n: nat, m: nat, t: ThreadId) returns (k: nat, advanced: bool)
    requires ValidBehavior(b) && UnderwayAt(b, n, t) && n <= m
    ensures advanced ==> n < k <= m && Advanced(b, n, k, t)
    ensures !advanced ==> Unmoved(b, n, m, t)
    decreases m
  {
    if n == m {
      k, advanced := n, false;
    } else {
      k, advanced := AdvanceOrWait(b, n, m - 1, t);
      if !advanced {
        OneMoment(b, m - 1, t);
        k, advanced := m, Advanced(b, n, m, t);
      }
    }
  }

  // ---------------------------------------------------------------------------------------
  // The slot guard is released again and again.

  ghost predicate GuardHeldAt(b: Behavior, n: nat, c: ConnId) {
    c in b.state(n).conns && GuardHeld(b.state(n).conns[c].pump.pc)
  }

  function GuardSteps(pc: Pc): nat { if GuardHeld(pc) then (if pc.stage.Count? then 2 else 1) else 0 }

  lemma GuardStep(s: State, step: Step, c: ConnId)
    requires Enabled(s, step) && c in s.conns && GuardHeld(s.conns[c].pump.pc)
    requires step.Caller? && s.callers[step.t].Install? ==> s.callers[step.t].c != c
    ensures c in Next(s, step).conns
    ensures step == PumpStep(c) ==>
              GuardSteps(Next(s, step).conns[c].pump.pc) < GuardSteps(s.conns[c].pump.pc)
    ensures step != PumpStep(c) ==> Next(s, step).conns[c].pump == s.conns[c].pump
  {
  }

  lemma GuardMoment(b: Behavior, n: nat, c: ConnId)
    requires ValidBehavior(b) && GuardHeldAt(b, n, c)
    ensures c in b.state(n + 1).conns
    ensures ActsAt(b, n, PumpOf(c)) ==>
              GuardSteps(b.state(n + 1).conns[c].pump.pc) < GuardSteps(b.state(n).conns[c].pump.pc)
    ensures !ActsAt(b, n, PumpOf(c)) ==> b.state(n + 1).conns[c].pump == b.state(n).conns[c].pump
  {
    BehaviorStructure(b, n);
    assert OneStep(b, n);
    if b.step(n).Some? {
      var s := b.state(n);
      assert ConnOk(s.conns[c], s.lane.active == Some(c), HolderCall(s, HolderOf(s)), c);
      GuardStep(s, b.step(n).value, c);
    }
  }

  /** Until the pump acts its guard state does not change. */
  lemma {:induction false} GuardUntil(b: Behavior, n: nat, m: nat, c: ConnId) returns (k: nat)
    requires ValidBehavior(b) && GuardHeldAt(b, n, c) && n <= m
    ensures n <= k <= m
    ensures GuardHeldAt(b, k, c) && b.state(k).conns[c].pump == b.state(n).conns[c].pump
    ensures k == m || ActsAt(b, k, PumpOf(c))
    ensures ActorEnabled(b.state(k), PumpOf(c))
    decreases m - n
  {
    if n == m || ActsAt(b, n, PumpOf(c)) {
      k := n;
    } else {
      GuardMoment(b, n, c);
      k := GuardUntil(b, n + 1, m, c);
    }
  }

  lemma {:induction false} GuardReleased(b: Behavior, n: nat, c: ConnId) returns (k: nat)
    requires ValidBehavior(b) && Fair(b) && c in b.state(n).conns
    ensures n <= k && !GuardHeldAt(b, k, c)
    decreases GuardSteps(b.state(n).conns[c].pump.pc)
  {
    if !GuardHeldAt(b, n, c) {
      k := n;
    } else {
      assert NotStarved(b, n, PumpOf(c));
      var m := PumpActs(b, n, c);
      GuardMoment(b, m, c);
      k := GuardReleased(b, m + 1, c);
    }
  }

  lemma PumpActs(b: Behavior, n: nat, c: ConnId) returns (k: nat)
    requires ValidBehavior(b) && Fair(b) && GuardHeldAt(b, n, c)
    ensures n <= k && ActsAt(b, k, PumpOf(c)) && GuardHeldAt(b, k, c)
    ensures b.state(k).conns[c].pump == b.state(n).conns[c].pump
  {
    assert NotStarved(b, n, PumpOf(c));
    if m :| n <= m && ActsAt(b, m, PumpOf(c)) {
      k := GuardUntil(b, n, m, c);
    } else {
      var m :| n <= m && DisabledFrom(b, m, PumpOf(c));
      k := GuardUntil(b, n, m, c);
    }
  }

  // ---------------------------------------------------------------------------------------
  // Termination of every call

  /** A moment from `n` on at which the helper is enabled or the call has already advanced. */
  lemma HelperEnabled(b: Behavior, n: nat, m: nat, t: ThreadId) returns (k: nat, advanced: bool)
    requires ValidBehavior(b) && Fair(b) && UnderwayAt(b, n, t) && n <= m
    ensures advanced ==> n < k && Advanced(b, n, k, t)
    ensures !advanced ==> m <= k && ActorEnabled(b.state(k), HelperAt(b, n, t))
  {
    k, advanced := AdvanceOrWait(b, n, m, t);
    if !advanced {
      BehaviorStructure(b, m);
      HelperCanStep(b.state(m), HolderOf(b.state(m)), t);
      k := m;
      if AtGuard(b.state(m), HolderOf(b.state(m))) {
        var c := HolderCallAt(b, m).value.c;
        var free := GuardReleased(b, m, c);
        k, advanced := AdvanceOrWait(b, n, free, t);
        if !advanced {
          BehaviorStructure(b, free);
          HelperCanStep(b.state(free), HolderOf(b.state(free)), t);
          k := free;
        }
      }
    }
  }

  lemma EventuallyAdvances(b: Behavior, n: nat, t: ThreadId) returns (k: nat)
    requires ValidBehavior(b) && Fair(b) && UnderwayAt(b, n, t)
    ensures n < k && Advanced(b, n, k, t)
  {
    var a := HelperAt(b, n, t);
    var advanced;
    assert NotStarved(b, n, a);
    if m :| n <= m && ActsAt(b, m, a) {
      k, advanced := AdvanceOrWait(b, n, m, t);
      if !advanced {
        OneMoment(b, m, t);
        k := m + 1;
      }
    } else {
      var m :| n <= m && DisabledFrom(b, m, a);
      k, advanced := HelperEnabled(b, n, m, t);
    }
  }

  /** A call past its admission returns. */
  lemma {:induction false} UnderwayReturns(b: Behavior, n: nat, t: ThreadId) returns (k: nat)
    requires ValidBehavior(b) && Fair(b) && UnderwayAt(b, n, t)
    ensures n < k && t !in b.state(k).callers
    decreases WorkAt(b, n)
  {
    k := EventuallyAdvances(b, n, t);
    if t in b.state(k).callers {
      k := UnderwayReturns(b, k, t);
    }
  }

  /** Until it acts, a call waiting for its admission stays where it is. */
  lemma {:induction false} EntryUntil(b: Behavior, n: nat, m: nat, t: ThreadId) returns (k: nat)
    requires ValidBehavior(b) && n <= m && t in b.state(n).callers && Entry(b.state(n).callers[t])
    ensures n <= k <= m && t in b.state(k).callers && b.state(k).callers[t] == b.state(n).callers[t]
    ensures k == m || ActsAt(b, k, CallerOf(t))
    ensures ActorEnabled(b.state(k), CallerOf(t))
    decreases m - n
  {
    if n == m || ActsAt(b, n, CallerOf(t)) {
      k := n;
    } else {
      assert OneStep(b, n);
      if b.step(n).Some? && b.step(n).value.Caller? {
        OthersUntouched(b.state(n), b.step(n).value.t, b.step(n).value.outcome, t);
      }
      k := EntryUntil(b, n + 1, m, t);
    }
  }

  lemma EntryActs(b: Behavior, n: nat, t: ThreadId) returns (k: nat)
    requires ValidBehavior(b) && Fair(b) && t in b.state(n).callers && Entry(b.state(n).callers[t])
    ensures n <= k && ActsAt(b, k, CallerOf(t))
    ensures t in b.state(k).callers && b.state(k).callers[t] == b.state(n).callers[t]
  {
    assert NotStarved(b, n, CallerOf(t));
    if m :| n <= m && ActsAt(b, m, CallerOf(t)) {
      k := EntryUntil(b, n, m, t);
    } else {
      var m :| n <= m && DisabledFrom(b, m, CallerOf(t));
      k := EntryUntil(b, n, m, t);
    }
  }

  lemma PastAdmission(s: State, t: ThreadId)
    requires Structure(s, HolderOf(s)) && t in s.callers && !Entry(s.callers[t])
    ensures Underway(s, HolderOf(s), t)
  {
    assert WindowOf(s.callers[t]).Some? ==> HolderOf(s) == Some(t);
  }

  /**
    Every connect, disconnect and drain call returns, in every fair behaviour: no join, no slot
    guard and no drain waits for ever. A section under a lock is one step here (only a slot guard
    is held over several), so freedom from deadlock is relative to sections that end by
    themselves, which `OneLockPerStep` allows: none takes a second lock.
   */
  lemma EveryCallReturns(b: Behavior, n: nat, t: ThreadId) returns (k: nat)
    requires ValidBehavior(b) && Fair(b) && t in b.state(n).callers
    ensures n < k && t !in b.state(k).callers
  {
    var m := n;
    if Entry(b.state(n).callers[t]) {
      var acts := EntryActs(b, n, t);
      assert OneStep(b, acts);
      m := acts + 1;
    }
    if t in b.state(m).callers {
      BehaviorStructure(b, m);
      PastAdmission(b.state(m), t);
      k := UnderwayReturns(b, m, t);
    } else {
      k := m;
    }
  }
}
