/**
  The terminal client's refresh: a worker thread that fetches, stamps and publishes snapshots
  into a one-place cell, and a frame loop that drains the cell and draws. All interleavings of
  the two, under a monotonic clock.
 */
module Tui {
  import opened Wrappers

  /** A daemon state or the error text shown in its place. */
  type Snapshot = Result<string, string>

  /** A snapshot with the moment its fetch completed, in milliseconds. */
  datatype Stamped = Stamped(at: nat, snapshot: Snapshot)

  const STALE_AFTER: nat := 1500

  // ---------------------------------------------------------------------------------------
  // The two threads

  /** What a frame shows. */
  datatype View = View(snapshot: Option<Snapshot>, stale: bool)

  function SaturatingSince(now: nat, earlier: nat): nat { if now >= earlier then now - earlier else 0 }

  function ViewOf(held: Option<Stamped>, startedAt: nat, now: nat): View {
    var reference := if held.Some? then held.value.at else startedAt;
    View(if held.Some? then Some(held.value.snapshot) else None, SaturatingSince(now, reference) >= STALE_AFTER)
  }

  datatype WorkerPc = Fetching | Fetched(snapshot: Snapshot) | Publishing(stamped: Stamped) | Resting | Stopped

  /**
    The loop's state is created after the worker has started. `Ready(asOf)` remembers how many
    snapshots had been published at the empty take.
   */
  datatype FramePc = Starting | Draining | Ready(asOf: nat) | Polling | Exited

  /** A drawn frame: its view, when it was drawn, and the publications it had seen. */
  datatype Frame = Frame(view: View, now: nat, asOf: nat)

  datatype State = State(
    clock: nat,
    startedAt: nat,
    slot: Option<Stamped>,
    worker: WorkerPc,
    held: Option<Stamped>,
    frame: FramePc,
    published: seq<Stamped>,
    drawn: seq<Frame>)

  predicate Init(s: State) {
    && s.slot.None? && s.worker.Fetching? && s.held.None? && s.frame.Starting?
    && s.published == [] && s.drawn == [] && s.startedAt <= s.clock
  }

  datatype Step =
    | Tick(elapsed: nat)
    | FetchReturns(snapshot: Snapshot)
    | StampFetch
    | PublishFetch
    | WakeWorker
    | StopWorker
    | StartLoop
    | TakeSnapshot
    | Draw
    | PollKeys(quit: bool)
    | Terminate

  predicate Enabled(s: State, step: Step) {
    match step
    case Tick(_) => true
    case FetchReturns(_) => s.worker.Fetching?
    case StampFetch => s.worker.Fetched?
    case PublishFetch => s.worker.Publishing?
    case WakeWorker => s.worker.Resting?
    case StopWorker => s.worker.Resting? || s.worker.Fetching?
    case StartLoop => s.frame.Starting?
    case TakeSnapshot => s.frame.Draining?
    case Draw => s.frame.Ready?
    case PollKeys(_) => s.frame.Polling?
    case Terminate => s.frame.Ready?
  }

  function Next(s: State, step: Step): State
    requires Enabled(s, step)
  {
    match step
    case Tick(d) => s.(clock := s.clock + d)
    case FetchReturns(snapshot) => s.(worker := Fetched(snapshot))
    case StampFetch => s.(worker := Publishing(Stamped(s.clock, s.worker.snapshot)))
    case PublishFetch =>
      s.(slot := Some(s.worker.stamped), published := s.published + [s.worker.stamped], worker := Resting)
    case WakeWorker => s.(worker := Fetching)
    case StopWorker => s.(worker := Stopped)
    case StartLoop => s.(startedAt := s.clock, frame := Draining)
    case TakeSnapshot =>
      if s.slot.Some? then s.(held := s.slot, slot := None) else s.(frame := Ready(|s.published|))
    case Draw =>
      s.(drawn := s.drawn + [Frame(ViewOf(s.held, s.startedAt, s.clock), s.clock, s.frame.asOf)], frame := Polling)
    case PollKeys(quit) => s.(frame := if quit then Exited else Draining)
    case Terminate => s.(frame := Exited)
  }

  datatype Run = Run(states: seq<State>, steps: seq<Step>)

  ghost predicate StepAt(r: Run, i: nat) {
    && i < |r.steps| && i + 1 < |r.states|
    && Enabled(r.states[i], r.steps[i])
    && r.states[i + 1] == Next(r.states[i], r.steps[i])
  }

  ghost predicate ValidRun(r: Run) {
    && |r.states| == |r.steps| + 1
    && Init(r.states[0])
    && forall i {:trigger StepAt(r, i)} :: 0 <= i < |r.steps| ==> StepAt(r, i)
  }

  function Last(r: Run): State
    requires r.states != []
  {
    r.states[|r.states| - 1]
  }

  lemma Play(r: Run, step: Step) returns (r': Run)
    requires ValidRun(r) && Enabled(Last(r), step)
    ensures ValidRun(r') && Last(r') == Next(Last(r), step)
    ensures r' == Run(r.states + [Next(Last(r), step)], r.steps + [step])
  {
    r' := Run(r.states + [Next(Last(r), step)], r.steps + [step]);
    forall i | 0 <= i < |r'.steps| ensures StepAt(r', i) {
      if i < |r.steps| {
        assert StepAt(r, i);
      }
    }
  }

  // ---------------------------------------------------------------------------------------
  // Newest wins

  /** The k-th published snapshot, or none before the first. */
  function Published(s: State, k: nat): Option<Stamped> {
    if 1 <= k <= |s.published| then Some(s.published[k - 1]) else None
  }

  function StampOf(x: Option<Stamped>): nat { if x.Some? then x.value.at else 0 }

  /** Publication follows fetch time. */
  ghost predicate StampsOk(s: State) {
    && (forall i, j :: 0 <= i < j < |s.published| ==> s.published[i].at <= s.published[j].at)
    && (forall i :: 0 <= i < |s.published| ==> s.published[i].at <= s.clock)
    && (s.worker.Publishing? ==>
          && s.worker.stamped.at <= s.clock
          && forall i :: 0 <= i < |s.published| ==> s.published[i].at <= s.worker.stamped.at)
  }

  /** The loop holds the k-th publication; an empty slot means there is no newer one. */
  ghost predicate HeldOk(s: State, k: nat) {
    && k <= |s.published| && s.held == Published(s, k)
    && (s.slot.Some? ==> k < |s.published| && s.slot == Published(s, |s.published|))
    && (s.slot.None? ==> k == |s.published|)
    && (s.frame.Ready? ==> s.frame.asOf == k)
  }

  predicate FrameOk(s: State, frame: Frame) {
    frame.view == ViewOf(Published(s, frame.asOf), s.startedAt, frame.now)
  }

  ghost predicate FramesOk(s: State, k: nat) {
    && (forall i :: 0 <= i < |s.drawn| ==> s.drawn[i].asOf <= k && FrameOk(s, s.drawn[i]))
    && (forall i, j :: 0 <= i < j < |s.drawn| ==> s.drawn[i].asOf <= s.drawn[j].asOf)
    && (s.frame.Starting? ==> s.drawn == [])
  }

  ghost predicate Inv(s: State, k: nat) {
    StampsOk(s) && HeldOk(s, k) && FramesOk(s, k) && s.startedAt <= s.clock
  }

  /** The publication held after a step: a successful take is always the newest one. */
  function NextHeld(s: State, step: Step, k: nat): nat {
    if step.TakeSnapshot? && s.slot.Some? then |s.published| else k
  }

  lemma StepKeepsStamps(s: State, step: Step)
    requires StampsOk(s) && Enabled(s, step)
    ensures StampsOk(Next(s, step))
  {
  }

  lemma StepKeepsHeld(s: State, k: nat, step: Step)
    requires HeldOk(s, k) && Enabled(s, step)
    ensures HeldOk(Next(s, step), NextHeld(s, step, k))
  {
  }

  lemma StepKeepsFrames(s: State, k: nat, step: Step)
    requires HeldOk(s, k) && FramesOk(s, k) && Enabled(s, step)
    ensures FramesOk(Next(s, step), NextHeld(s, step, k))
  {
    var s' := Next(s, step);
    forall i | 0 <= i < |s.drawn| ensures s.drawn[i].asOf <= k && FrameOk(s', s.drawn[i]) {
      assert FrameOk(s, s.drawn[i]) && Published(s', s.drawn[i].asOf) == Published(s, s.drawn[i].asOf);
    }
  }

  lemma StepKeepsInv(s: State, k: nat, step: Step)
    requires Inv(s, k) && Enabled(s, step)
    ensures Inv(Next(s, step), NextHeld(s, step, k))
  {
    StepKeepsStamps(s, step);
    StepKeepsHeld(s, k, step);
    StepKeepsFrames(s, k, step);
  }

  lemma InvAfter(r: Run, i: nat, k: nat)
    requires ValidRun(r) && i < |r.steps| && Inv(r.states[i], k)
    ensures Inv(r.states[i + 1], NextHeld(r.states[i], r.steps[i], k))
  {
    assert StepAt(r, i);
    StepKeepsInv(r.states[i], k, r.steps[i]);
  }

  lemma {:induction false} RunInv(r: Run, i: nat) returns (k: nat)
    requires ValidRun(r) && i < |r.states|
    ensures Inv(r.states[i], k)
  {
    if i == 0 {
      k := 0;
    } else {
      var before := RunInv(r, i - 1);
      InvAfter(r, i - 1, before);
      k := NextHeld(r.states[i - 1], r.steps[i - 1], before);
    }
  }

  /**
    Drawn frames, by the publications they had seen: each shows the last of them, frames never go
    back in publication or fetch time, and the stale flag is set exactly when the age since fetch
    (or since start) has reached the limit.
   */
  lemma FramesGoForward(r: Run, i: nat)
    requires ValidRun(r) && i < |r.states|
    ensures var s := r.states[i];
      forall j :: 0 <= j < |s.drawn| ==>
        var frame := s.drawn[j];
        var shown := Published(s, frame.asOf);
        && frame.asOf <= |s.published|
        && frame.view.snapshot == (if shown.Some? then Some(shown.value.snapshot) else None)
        && (frame.view.stale <==>
              frame.now - (if shown.Some? then shown.value.at else s.startedAt) >= STALE_AFTER)
    ensures var s := r.states[i];
      forall j, l :: 0 <= j < l < |s.drawn| ==>
        && s.drawn[j].asOf <= s.drawn[l].asOf
        && StampOf(Published(s, s.drawn[j].asOf)) <= StampOf(Published(s, s.drawn[l].asOf))
  {
    var k := RunInv(r, i);
    assert forall j :: 0 <= j < |r.states[i].drawn| ==> FrameOk(r.states[i], r.states[i].drawn[j]);
  }

  /** The worker has had what it publishes next since moment `i`. */
  lemma {:induction false} PublishingSince(r: Run, j: nat) returns (i: nat)
    requires ValidRun(r) && j < |r.states| && r.states[j].worker.Publishing?
    ensures i < j && r.steps[i] == StampFetch && r.states[i].worker.Fetched?
    ensures r.states[j].worker.stamped == Stamped(r.states[i].clock, r.states[i].worker.snapshot)
  {
    assert StepAt(r, j - 1);
    if r.states[j - 1].worker.Publishing? {
      i := PublishingSince(r, j - 1);
    } else {
      i := j - 1;
    }
  }

  lemma {:induction false} FetchedSince(r: Run, j: nat) returns (i: nat)
    requires ValidRun(r) && j < |r.states| && r.states[j].worker.Fetched?
    ensures i < j && r.steps[i] == FetchReturns(r.states[j].worker.snapshot)
  {
    assert StepAt(r, j - 1);
    if r.states[j - 1].worker.Fetched? {
      i := FetchedSince(r, j - 1);
    } else {
      i := j - 1;
    }
  }

  /** A publication is the snapshot some fetch returned, with the clock of the stamp taken after it. */
  lemma PublicationIsStamped(r: Run, j: nat) returns (fetch: nat, stamp: nat)
    requires ValidRun(r) && j < |r.steps| && r.steps[j].PublishFetch?
    ensures fetch < stamp < j && r.steps[fetch].FetchReturns? && r.steps[stamp].StampFetch?
    ensures r.states[j + 1].published ==
            r.states[j].published + [Stamped(r.states[stamp].clock, r.steps[fetch].snapshot)]
    ensures r.states[j + 1].slot == Some(Stamped(r.states[stamp].clock, r.steps[fetch].snapshot))
  {
    assert StepAt(r, j);
    stamp := PublishingSince(r, j);
    fetch := FetchedSince(r, stamp);
  }

  /** At an empty take the loop holds the most recent publication, and remembers how many there were. */
  lemma EmptyTakeCounts(r: Run, i: nat)
    requires ValidRun(r) && i < |r.steps| && EmptyTakeAt(r, i)
    ensures r.states[i + 1].frame == Ready(|r.states[i].published|)
    ensures r.states[i + 1].held == Published(r.states[i], |r.states[i].published|)
  {
    var k := RunInv(r, i);
    assert StepAt(r, i);
  }

  predicate EmptyTakeAt(r: Run, i: nat) {
    i < |r.steps| && i < |r.states| && r.steps[i].TakeSnapshot? && r.states[i].slot.None?
  }

  /** Between moment `i` and moment `j` the loop has been ready to draw and held the same snapshot. */
  ghost predicate ReadySince(r: Run, i: nat, j: nat) {
    forall m :: i < m <= j < |r.states| ==> r.states[m].frame.Ready? && r.states[m].held == r.states[i + 1].held
  }

  lemma ReadyStep(r: Run, i: nat)
    requires ValidRun(r) && i < |r.steps| && r.states[i + 1].frame.Ready?
    ensures || EmptyTakeAt(r, i)
            || (r.states[i].frame == r.states[i + 1].frame && r.states[i].held == r.states[i + 1].held)
  {
    assert StepAt(r, i);
  }

  /** A loop that is ready to draw got there by an empty take. */
  lemma {:induction false} ReadyAfterEmptyTake(r: Run, j: nat) returns (i: nat)
    requires ValidRun(r) && j < |r.states| && r.states[j].frame.Ready?
    ensures i < j && EmptyTakeAt(r, i) && ReadySince(r, i, j)
    ensures r.states[j].frame == r.states[i + 1].frame && r.states[j].held == r.states[i + 1].held
  {
    ReadyStep(r, j - 1);
    if EmptyTakeAt(r, j - 1) {
      i := j - 1;
    } else {
      i := ReadyAfterEmptyTake(r, j - 1);
    }
  }

  /** The empty take at `i` ends the drain of the frame drawn at `j`. */
  ghost predicate EndsDrain(r: Run, i: nat, j: nat) {
    i < j && EmptyTakeAt(r, i) && ReadySince(r, i, j)
  }

  /**
    Newest wins: the frame drawn by any step of any run shows the snapshot that was the last one
    published at the empty take ending its drain, and is stale exactly if since the fetch of that
    snapshot (or since the start, if there was none) the limit has passed.
   */
  lemma NewestWins(r: Run, j: nat) returns (i: nat)
    requires ValidRun(r) && j < |r.steps| && r.steps[j].Draw?
    ensures EndsDrain(r, i, j)
    ensures |r.states[j + 1].drawn| == |r.states[j].drawn| + 1
    ensures var shown := Published(r.states[i], |r.states[i].published|);
      var frame := r.states[j + 1].drawn[|r.states[j].drawn|];
      && frame.asOf == |r.states[i].published| && frame.now == r.states[j].clock
      && frame.view.snapshot == (if shown.Some? then Some(shown.value.snapshot) else None)
      && (frame.view.stale <==>
            frame.now - (if shown.Some? then shown.value.at else r.states[j].startedAt) >= 1500)
  {
    assert StepAt(r, j);
    i := ReadyAfterEmptyTake(r, j);
    EmptyTakeCounts(r, i);
  }

  // ---------------------------------------------------------------------------------------
  // The mutable pieces: each method takes the step of the same part of the state

  /** The delivery cell: publishing overwrites, taking empties. */
  class SnapshotSlot {
    var slot: Option<Stamped>

    /** The cell of state `s` is this one. */
    ghost predicate Shows(s: State)
      reads this
    {
      s.slot == slot
    }

    constructor ()
      ensures slot == None
    {
      slot := None;
    }

    method Publish(snapshot: Stamped, ghost s: State) returns (ghost s': State)
      requires Shows(s) && s.worker == Publishing(snapshot)
      modifies this
      ensures s' == Next(s, PublishFetch) && Shows(s')
    {
      slot := Some(snapshot);
      s' := Next(s, PublishFetch);
    }

    method Take() returns (taken: Option<Stamped>)
      modifies this
      ensures taken == old(slot) && slot == None
    {
      taken := slot;
      slot := None;
    }
  }

  /** The frame loop's own state. */
  class LoopState {
    var snapshot: Option<Snapshot>
    var snapshotAt: Option<nat>
    var startedAt: nat

    /** The newest snapshot with its stamp. */
    ghost function Held(): Option<Stamped>
      reads this
    {
      if snapshot.Some? && snapshotAt.Some? then Some(Stamped(snapshotAt.value, snapshot.value)) else None
    }

    /** The loop's part of state `s` is this one. */
    ghost predicate Shows(s: State)
      reads this
    {
      snapshot.Some? == snapshotAt.Some? && s.held == Held() && s.startedAt == startedAt
    }

    constructor (now: nat, ghost s: State)
      requires s.frame.Starting? && s.held.None? && s.clock == now
      ensures Shows(Next(s, StartLoop))
    {
      snapshot, snapshotAt, startedAt := None, None, now;
    }

    method OnSnapshot(latest: Snapshot, at: nat)
      modifies this
      ensures snapshot == Some(latest) && snapshotAt == Some(at) && startedAt == old(startedAt)
    {
      snapshot, snapshotAt := Some(latest), Some(at);
    }

    /** One round of the drain: take from the cell, and hold what was there. */
    method DrainOnce(cell: SnapshotSlot, ghost s: State) returns (more: bool, ghost s': State)
      requires Shows(s) && cell.Shows(s) && s.frame.Draining?
      modifies this, cell
      ensures s' == Next(s, TakeSnapshot) && Shows(s') && cell.Shows(s')
      ensures more == s'.frame.Draining?
    {
      var taken := cell.Take();
      more := taken.Some?;
      if more {
        OnSnapshot(taken.value.snapshot, taken.value.at);
      }
      s' := Next(s, TakeSnapshot);
    }

    method CurrentView(now: nat, ghost s: State) returns (view: View)
      requires Shows(s) && s.frame.Ready? && s.clock == now
      ensures view == ViewOf(s.held, s.startedAt, now)
      ensures Next(s, Draw).drawn == s.drawn + [Frame(view, now, s.frame.asOf)]
    {
      var reference := if snapshotAt.Some? then snapshotAt.value else startedAt;
      view := View(snapshot, SaturatingSince(now, reference) >= STALE_AFTER);
    }

    /** A frame that no publication interrupts: drain the cell, then draw what was published last. */
    method DrawFrame(cell: SnapshotSlot, now: nat, ghost r: Run) returns (view: View, ghost r': Run)
      requires ValidRun(r) && Shows(Last(r)) && cell.Shows(Last(r)) && Last(r).frame.Draining? && Last(r).clock == now
      modifies this, cell
      ensures ValidRun(r') && Shows(Last(r')) && cell.Shows(Last(r')) && Last(r').frame.Polling?
      ensures view == ViewOf(Published(Last(r), |Last(r).published|), startedAt, now)
    {
      r' := r;
      var more := true;
      while more
        invariant ValidRun(r') && Shows(Last(r')) && cell.Shows(Last(r')) && Last(r').clock == now
        invariant Last(r').published == Last(r).published
        invariant if more then Last(r').frame.Draining? else Last(r').frame.Ready? && Last(r').slot.None?
        decreases more, cell.slot.Some?
      {
        ghost var s';
        more, s' := DrainOnce(cell, Last(r'));
        r' := Play(r', TakeSnapshot);
      }
      ghost var k := RunInv(r', |r'.steps|);
      view := CurrentView(now, Last(r'));
      r' := Play(r', Draw);
    }
  }
}
