/**
  The daemon's automatic-refresh driver under an arbitrary environment: the stop flag, the
  scheduler's next due time and the wall clock answer each reading as they like, the clock
  jumping either way.

  The environment is a script of answers, one per reading. Every finite beginning of a run of
  the driver is the run of some script, so what holds of all scripts holds of all runs.
 */
module RefreshDriver {
  import opened Wrappers

  /** One moment's answers: the stop flag, the next due time (seconds) and the clock. */
  datatype Reading = Reading(stop: bool, due: Option<nat>, now: nat)

  /** The loop a reading is made in. */
  datatype Level = Outer | Inner

  /** What the driver does, in order; sleeps are in milliseconds. */
  datatype Action =
    | CheckStop(level: Level, stopped: bool)
    | ReadWait(level: Level, due: Option<nat>, now: nat)
    | Sleep(ms: nat)
    | Refresh

  const STOP_POLL_SLICE: nat := 500

  /** The seconds left: none when never fetched, and saturating when overdue. */
  function WaitSeconds(due: Option<nat>, now: nat): nat {
    if due.Some? && due.value > now then due.value - now else 0
  }

  function SleepSlice(remaining: nat): nat {
    if remaining * 1000 < STOP_POLL_SLICE then remaining * 1000 else STOP_POLL_SLICE
  }

  /** Where the driver is between two readings. */
  datatype Pc = OuterCheck | OuterRead | InnerCheck | InnerRead

  /** What the driver does on one answer, up to its next reading. */
  function Here(pc: Pc, r: Reading): seq<Action> {
    var remaining := WaitSeconds(r.due, r.now);
    match pc
    case OuterCheck => [CheckStop(Outer, r.stop)]
    case OuterRead => [ReadWait(Outer, r.due, r.now)] + (if remaining > 0 then [] else [Refresh])
    case InnerCheck => [CheckStop(Inner, r.stop)]
    case InnerRead => [ReadWait(Inner, r.due, r.now)] + (if remaining == 0 then [] else [Sleep(SleepSlice(remaining))])
  }

  /** Where it reads next, if it goes on. */
  function Onward(pc: Pc, r: Reading): Option<Pc> {
    var remaining := WaitSeconds(r.due, r.now);
    match pc
    case OuterCheck => if r.stop then None else Some(OuterRead)
    case OuterRead => Some(if remaining > 0 then InnerCheck else OuterCheck)
    case InnerCheck => Some(if r.stop then OuterCheck else InnerRead)
    case InnerRead => Some(if remaining == 0 then OuterCheck else InnerCheck)
  }

  /** The driver's actions on a script of answers. */
  function Trace(pc: Option<Pc>, script: seq<Reading>): seq<Action>
    decreases |script|
  {
    if pc.None? || script == [] then []
    else Here(pc.value, script[0]) + Trace(Onward(pc.value, script[0]), script[1..])
  }

  lemma Advance(pc: Pc, script: seq<Reading>, i: nat, done: seq<Action>)
    requires i < |script|
    ensures done + Trace(Some(pc), script[i..]) ==
            (done + Here(pc, script[i])) + Trace(Onward(pc, script[i]), script[i + 1..])
  {
    assert script[i..][1..] == script[i + 1..];
    AppendAssociates(done, Here(pc, script[i]), Trace(Onward(pc, script[i]), script[i + 1..]));
  }

  // ---------------------------------------------------------------------------------------
  // The driver as it runs

  /** The inner loop: sleeping to the deadline in slices. */
  method WaitOut(script: seq<Reading>, start: nat, before: seq<Action>) returns (trace: seq<Action>, i: nat)
    requires start <= |script|
    ensures start <= i <= |script|
    ensures before + Trace(Some(InnerCheck), script[start..]) == trace + Trace(Some(OuterCheck), script[i..])
  {
    trace, i := before, start;
    while i < |script|
      invariant start <= i <= |script|
      invariant before + Trace(Some(InnerCheck), script[start..]) == trace + Trace(Some(InnerCheck), script[i..])
    {
      Advance(InnerCheck, script, i, trace);
      trace, i := trace + [CheckStop(Inner, script[i].stop)], i + 1;
      if script[i - 1].stop || i == |script| {
        return;
      }
      Advance(InnerRead, script, i, trace);
      var remaining := WaitSeconds(script[i].due, script[i].now);
      trace, i := trace + Here(InnerRead, script[i]), i + 1;
      if remaining == 0 {
        return;
      }
    }
  }

  method DriveRefreshes(script: seq<Reading>) returns (trace: seq<Action>)
    ensures trace == Trace(Some(OuterCheck), script)
  {
    trace := [];
    var i := 0;
    assert script[0..] == script;
    while i < |script|
      invariant 0 <= i <= |script|
      invariant Trace(Some(OuterCheck), script) == trace + Trace(Some(OuterCheck), script[i..])
    {
      Advance(OuterCheck, script, i, trace);
      trace, i := trace + [CheckStop(Outer, script[i].stop)], i + 1;
      if script[i - 1].stop || i == |script| {
        return;
      }
      Advance(OuterRead, script, i, trace);
      var wait := WaitSeconds(script[i].due, script[i].now);
      trace, i := trace + Here(OuterRead, script[i]), i + 1;
      if wait > 0 {
        trace, i := WaitOut(script, i, trace);
      }
    }
  }

  // ---------------------------------------------------------------------------------------
  // What holds on every script

  /** A reading shows the window due, or that nothing was ever fetched. */
  predicate ShowsDue(a: Action) { a.ReadWait? && (a.due.None? || a.due.value <= a.now) }

  predicate ShowsRemaining(a: Action) { a.ReadWait? && a.due.Some? && a.due.value > a.now }

  /** A refresh comes right after a reading that shows it due. */
  ghost predicate RefreshesOnlyWhenDue(trace: seq<Action>) {
    forall i :: 0 <= i < |trace| && trace[i].Refresh? ==> i > 0 && ShowsDue(trace[i - 1])
  }

  /** A sleep comes right after a reading that shows time remaining, and is one slice at most. */
  ghost predicate SleepsOnlyWhileWaiting(trace: seq<Action>) {
    forall i :: 0 <= i < |trace| && trace[i].Sleep? ==>
      && i > 0 && ShowsRemaining(trace[i - 1])
      && 0 < trace[i].ms <= STOP_POLL_SLICE
      && trace[i].ms <= (trace[i - 1].due.value - trace[i - 1].now) * 1000
  }

  lemma RefreshesConcat(head: seq<Action>, trace: seq<Action>)
    requires RefreshesOnlyWhenDue(head) && RefreshesOnlyWhenDue(trace)
    ensures RefreshesOnlyWhenDue(head + trace)
  {
    var all := head + trace;
    forall i | 0 <= i < |all| ensures all[i] == if i < |head| then head[i] else trace[i - |head|] {
    }
  }

  lemma SleepsConcat(head: seq<Action>, trace: seq<Action>)
    requires SleepsOnlyWhileWaiting(head) && SleepsOnlyWhileWaiting(trace)
    ensures SleepsOnlyWhileWaiting(head + trace)
  {
    var all := head + trace;
    forall i | 0 <= i < |all| ensures all[i] == if i < |head| then head[i] else trace[i - |head|] {
    }
  }

  lemma HereIsWellBehaved(pc: Pc, r: Reading)
    ensures RefreshesOnlyWhenDue(Here(pc, r)) && SleepsOnlyWhileWaiting(Here(pc, r))
  {
  }

  /**
    Under any clock, with jumps either way: a refresh starts only right after a reading showing
    the window due or never fetched, and every sleep directly follows a reading showing time
    remaining and is at most one slice and at most that time.
   */
  lemma {:induction false} DriverIsWellBehaved(pc: Option<Pc>, script: seq<Reading>)
    ensures RefreshesOnlyWhenDue(Trace(pc, script)) && SleepsOnlyWhileWaiting(Trace(pc, script))
    decreases |script|
  {
    if pc.Some? && script != [] {
      DriverIsWellBehaved(Onward(pc.value, script[0]), script[1..]);
      HereIsWellBehaved(pc.value, script[0]);
      RefreshesConcat(Here(pc.value, script[0]), Trace(Onward(pc.value, script[0]), script[1..]));
      SleepsConcat(Here(pc.value, script[0]), Trace(Onward(pc.value, script[0]), script[1..]));
    }
  }

  /** The action right after `a` in a trace, if there is one yet. */
  function After(trace: seq<Action>, i: nat): Option<Action> {
    if i + 1 < |trace| then Some(trace[i + 1]) else None
  }

  predicate IsCheck(next: Option<Action>, level: Level) {
    next.None? || (next.value.CheckStop? && next.value.level == level)
  }

  predicate IsRead(next: Option<Action>, level: Level) {
    next.None? || (next.value.ReadWait? && next.value.level == level)
  }

  /** The sleep for `seconds` remaining: all of it, or one slice of half a second. */
  function Slice(seconds: nat): Action { Sleep(if seconds * 1000 <= 500 then seconds * 1000 else 500) }

  /** What the driver must do next, action by action. */
  predicate Follows(a: Action, next: Option<Action>) {
    match a
    case CheckStop(Outer, stopped) => if stopped then next.None? else IsRead(next, Outer)
    case CheckStop(Inner, stopped) => if stopped then IsCheck(next, Outer) else IsRead(next, Inner)
    case ReadWait(Outer, due, now) => if ShowsDue(a) then next == Some(Refresh) else IsCheck(next, Inner)
    case ReadWait(Inner, due, now) =>
      if ShowsRemaining(a) then next == Some(Slice(due.value - now)) else IsCheck(next, Outer)
    case Sleep(_) => IsCheck(next, Inner)
    case Refresh => IsCheck(next, Outer)
  }

  predicate Begins(pc: Option<Pc>, first: Option<Action>) {
    match pc
    case None => first.None?
    case Some(OuterCheck) => IsCheck(first, Outer)
    case Some(OuterRead) => IsRead(first, Outer)
    case Some(InnerCheck) => IsCheck(first, Inner)
    case Some(InnerRead) => IsRead(first, Inner)
  }

  lemma TraceBegins(pc: Option<Pc>, script: seq<Reading>)
    ensures Begins(pc, if Trace(pc, script) == [] then None else Some(Trace(pc, script)[0]))
  {
  }

  lemma HereFollows(pc: Pc, r: Reading, i: nat, next: Option<Action>)
    requires i < |Here(pc, r)| && Begins(Onward(pc, r), next)
    ensures Follows(Here(pc, r)[i], if i + 1 < |Here(pc, r)| then Some(Here(pc, r)[i + 1]) else next)
  {
  }

  /**
    The driver's whole control flow: under any flag, due time and clock, a check that reads stop
    ends its loop, an outer reading that shows due is followed by a refresh, an inner one that
    shows time remaining by a sleep of the smaller of that time and a slice, and so on.
   */
  lemma {:induction false} EveryActionFollows(pc: Option<Pc>, script: seq<Reading>, i: nat)
    requires i < |Trace(pc, script)|
    ensures Follows(Trace(pc, script)[i], After(Trace(pc, script), i))
    decreases |script|
  {
    var head, onward, rest := Here(pc.value, script[0]), Onward(pc.value, script[0]), script[1..];
    var tail := Trace(onward, rest);
    assert Trace(pc, script) == head + tail;
    if i < |head| {
      TraceBegins(onward, rest);
      HereFollows(pc.value, script[0], i, if tail == [] then None else Some(tail[0]));
    } else {
      EveryActionFollows(onward, rest, i - |head|);
      assert After(head + tail, i) == After(tail, i - |head|);
    }
  }

  predicate SawStop(a: Action) { a.CheckStop? && a.stopped }

  /** The stop flag, once set, stays set. */
  ghost predicate StopIsFinal(script: seq<Reading>) {
    forall i, j :: 0 <= i < j < |script| && script[i].stop ==> script[j].stop
  }

  /** While the flag reads set, a driver about to check it does nothing but check it. */
  lemma {:induction false} StoppedDoesNothing(pc: Option<Pc>, script: seq<Reading>)
    requires pc != Some(OuterRead) && pc != Some(InnerRead)
    requires forall i :: 0 <= i < |script| ==> script[i].stop
    ensures forall i :: 0 <= i < |Trace(pc, script)| ==> Trace(pc, script)[i].CheckStop?
    decreases |script|
  {
    if pc.Some? && script != [] {
      StoppedDoesNothing(Onward(pc.value, script[0]), script[1..]);
    }
  }

  /** Trace, one answer at a time. */
  lemma TraceTail(pc: Pc, script: seq<Reading>, k: nat)
    requires script != []
    requires var head := Here(pc, script[0]); |head| <= k < |Trace(Some(pc), script)|
    ensures var head, tail := Here(pc, script[0]), Trace(Onward(pc, script[0]), script[1..]);
      |Trace(Some(pc), script)| == |head| + |tail| && Trace(Some(pc), script)[k] == tail[k - |head|]
  {
  }

  /** Whatever follows an outer check, that check read the flag clear. */
  lemma {:induction false} GoingOnNeedsAClearFlag(script: seq<Reading>, j: nat)
    requires j < |Trace(Some(OuterCheck), script)| && !Trace(Some(OuterCheck), script)[j].CheckStop?
    ensures j > 0 && Trace(Some(OuterCheck), script)[0] == CheckStop(Outer, false)
  {
    assert Trace(Some(OuterCheck), script)[0] == CheckStop(Outer, script[0].stop);
    TraceTail(OuterCheck, script, j);
  }

  /**
    For any flag at all: whatever is read, slept or refreshed after a loop saw the flag set, the
    outer loop has read the flag clear again in between.
   */
  lemma {:induction false} WorkAfterStopNeedsItTakenBack(pc: Option<Pc>, script: seq<Reading>, i: nat, j: nat)
    returns (k: nat)
    requires i < j < |Trace(pc, script)| && SawStop(Trace(pc, script)[i]) && !Trace(pc, script)[j].CheckStop?
    ensures i < k < j && Trace(pc, script)[k] == CheckStop(Outer, false)
    decreases |script|
  {
    var n, onward, rest := |Here(pc.value, script[0])|, Onward(pc.value, script[0]), script[1..];
    if i < n {
      assert Trace(pc, script)[i] == Here(pc.value, script[0])[i];
      TraceTail(pc.value, script, j);
      assert onward == Some(OuterCheck);
      GoingOnNeedsAClearFlag(rest, j - n);
      k := 1;
    } else {
      TraceTail(pc.value, script, i);
      TraceTail(pc.value, script, j);
      k := WorkAfterStopNeedsItTakenBack(onward, rest, i - n, j - n);
      k := k + n;
    }
    TraceTail(pc.value, script, k);
  }

  /** An outer check that reads the flag clear is followed by a reading. */
  lemma {:induction false} ClearGoesOn(pc: Option<Pc>, script: seq<Reading>, k: nat)
    requires k + 1 < |Trace(pc, script)| && Trace(pc, script)[k] == CheckStop(Outer, false)
    ensures Trace(pc, script)[k + 1].ReadWait?
    decreases |script|
  {
    var n, onward, rest := |Here(pc.value, script[0])|, Onward(pc.value, script[0]), script[1..];
    TraceTail(pc.value, script, k + 1);
    if k < n {
      assert Trace(pc, script)[k] == Here(pc.value, script[0])[k];
      assert onward == Some(OuterRead);
    } else {
      TraceTail(pc.value, script, k);
      ClearGoesOn(onward, rest, k - n);
    }
  }

  /** The driver reads, sleeps or refreshes at some point after `i`. */
  ghost predicate GoesOn(trace: seq<Action>, i: nat) {
    exists j :: i < j < |trace| && !trace[j].CheckStop?
  }

  /** After `i`, and before the trace ends, the outer loop reads the flag clear. */
  ghost predicate ReadsClear(trace: seq<Action>, i: nat) {
    exists k :: i < k < |trace| - 1 && trace[k] == CheckStop(Outer, false)
  }

  /**
    Exactly when stop is obeyed, for any flag and any clock: after either loop has seen the flag
    set the driver reads, sleeps or refreshes again if and only if the outer loop reads it clear.
   */
  lemma NothingAfterStop(pc: Option<Pc>, script: seq<Reading>, i: nat)
    requires i < |Trace(pc, script)| && SawStop(Trace(pc, script)[i])
    ensures GoesOn(Trace(pc, script), i) <==> ReadsClear(Trace(pc, script), i)
  {
    var trace := Trace(pc, script);
    if j :| i < j < |trace| && !trace[j].CheckStop? {
      var k := WorkAfterStopNeedsItTakenBack(pc, script, i, j);
    }
    if k :| i < k < |trace| - 1 && trace[k] == CheckStop(Outer, false) {
      ClearGoesOn(pc, script, k);
      assert !trace[k + 1].CheckStop?;
    }
  }

  /** So with a flag that stays set, nothing but checks follows once it has been seen. */
  lemma {:induction false} FinalStopIsObeyed(pc: Option<Pc>, script: seq<Reading>, i: nat)
    requires StopIsFinal(script) && i < |Trace(pc, script)| && SawStop(Trace(pc, script)[i])
    ensures !GoesOn(Trace(pc, script), i)
    decreases |script|
  {
    var n, onward, rest := |Here(pc.value, script[0])|, Onward(pc.value, script[0]), script[1..];
    assert forall m :: 0 <= m < |rest| ==> rest[m] == script[m + 1];
    if j :| i < j < |Trace(pc, script)| && !Trace(pc, script)[j].CheckStop? {
      if i < n {
        assert Trace(pc, script)[i] == Here(pc.value, script[0])[i];
        TraceTail(pc.value, script, j);
        StoppedDoesNothing(onward, rest);
      } else {
        TraceTail(pc.value, script, i);
        TraceTail(pc.value, script, j);
        FinalStopIsObeyed(onward, rest, i - n);
        assert GoesOn(Trace(onward, rest), i - n);
      }
    }
  }

  /**
    Such a flag does matter: an inner loop that saw the flag goes on if the outer loop then
    reads it clear: here the window is refreshed after the flag was seen set.
   */
  lemma FlagThatIsTakenBack()
    ensures exists script, i, j ::
      0 <= i < j < |Trace(Some(OuterCheck), script)|
      && SawStop(Trace(Some(OuterCheck), script)[i]) && Trace(Some(OuterCheck), script)[j].Refresh?
  {
    var script := [Reading(false, None, 0), Reading(false, Some(1), 0), Reading(true, None, 0),
                   Reading(false, None, 0), Reading(false, None, 0)];
    var t5 := Trace(Some(OuterCheck), script);
    assert Trace(Some(OuterRead), script[4..]) == [ReadWait(Outer, None, 0), Refresh];
    assert Trace(Some(OuterCheck), script[3..]) == [CheckStop(Outer, false), ReadWait(Outer, None, 0), Refresh];
    assert Trace(Some(InnerCheck), script[2..]) ==
           [CheckStop(Inner, true), CheckStop(Outer, false), ReadWait(Outer, None, 0), Refresh];
    assert t5[2] == CheckStop(Inner, true) && t5[5] == Refresh;
  }
}
