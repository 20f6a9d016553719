/**
  The engine's bounded event lane, as one connection exposes it.

  The engine thread announces states, fatal certificate failures and other events. A state is
  recorded as the latest state first and only then offered to the bounded queue; a full queue
  drops it and counts the drop. These are separate steps here because they are separate in the
  engine, so a consumer may run between any two of them.
 */
module Feed {
  import opened Wrappers

  datatype VpnState = Disconnected | Connecting | Connected | Disconnecting

  /** The connection part of an engine state, without the payloads no decision reads. */
  datatype EngineState = Down | Dialing | DialingAgent | Up

  function MapVpnState(state: EngineState): VpnState {
    match state
    case Down => Disconnected
    case Dialing => Connecting
    case DialingAgent => Connecting
    case Up => Connected
  }

  /** What a frontend may read off a published state about the engine's. */
  predicate Tells(published: VpnState, state: EngineState) {
    && (published == Connected <==> state.Up?)
    && (published == Disconnected <==> state.Down?)
    && (published == Connecting <==> state.Dialing? || state.DialingAgent?)
  }

  /** The mapping is the one published state that tells the engine state, and no other does. */
  lemma MapTells(state: EngineState, published: VpnState)
    ensures Tells(published, state) <==> published == MapVpnState(state)
  {
  }

  /** `StateChange(n)` carries the engine's n-th state, counting from 1. */
  datatype Event = StateChange(n: nat) | CertificateFatal | OtherEvent

  /** What the engine thread still owes for the event it is announcing. */
  datatype Sender = Ready | Sending(event: Event) | CountingDrop | RetainingFatal

  const EVENT_CHANNEL_BOUND: nat := 1024

  /**
    `history` holds every state announced so far, so its length is the number of the latest
    state. `retained` is the recovery slot of a fatal that met a full queue, `raised` records
    that a fatal was ever announced, and `closed` that the engine thread has exited.
   */
  datatype Feed = Feed(
    history: seq<EngineState>,
    queue: seq<Event>,
    drops: nat,
    retained: bool,
    raised: bool,
    sender: Sender,
    closed: bool)

  const EMPTY_FEED := Feed([], [], 0, false, false, Ready, false)

  /** The number of the last state offered to the queue. */
  function Sent(f: Feed): int {
    if f.sender.Sending? && f.sender.event.StateChange? then |f.history| - 1 else |f.history|
  }

  datatype FeedStep = EmitState(state: EngineState) | EmitFatal | EmitOther | Forward | Account | Die

  predicate FeedEnabled(f: Feed, step: FeedStep) {
    match step
    case EmitState(_) => f.sender.Ready? && !f.closed
    case EmitFatal => f.sender.Ready? && !f.closed
    case EmitOther => f.sender.Ready? && !f.closed
    case Forward => f.sender.Sending?
    case Account => f.sender.CountingDrop? || f.sender.RetainingFatal?
    case Die => f.sender.Ready? && !f.closed
  }

  function FeedNext(f: Feed, step: FeedStep): Feed
    requires FeedEnabled(f, step)
  {
    match step
    case EmitState(state) =>
      f.(history := f.history + [state], sender := Sending(StateChange(|f.history| + 1)))
    case EmitFatal =>
      f.(raised := true, sender := Sending(CertificateFatal))
    case EmitOther =>
      f.(sender := Sending(OtherEvent))
    case Forward =>
      if |f.queue| < EVENT_CHANNEL_BOUND then
        f.(queue := f.queue + [f.sender.event], sender := Ready)
      else
        match f.sender.event {
          case StateChange(_) => f.(sender := CountingDrop)
          case CertificateFatal => f.(sender := RetainingFatal)
          case OtherEvent => f.(sender := Ready)
        }
    case Account =>
      if f.sender.CountingDrop? then
        f.(drops := f.drops + 1, sender := Ready)
      else
        f.(retained := true, sender := Ready)
    case Die =>
      f.(closed := true)
  }

  /** The state numbers an event sequence carries, in order. */
  function Numbers(events: seq<Event>): seq<nat> {
    if events == [] then []
    else (if events[0].StateChange? then [events[0].n] else []) + Numbers(events[1..])
  }

  lemma {:induction false} NumbersOfConcat(a: seq<Event>, b: seq<Event>)
    ensures Numbers(a + b) == Numbers(a) + Numbers(b)
  {
    if a == [] {
      assert a + b == b;
    } else {
      var head := if a[0].StateChange? then [a[0].n] else [];
      assert (a + b)[1..] == a[1..] + b;
      NumbersOfConcat(a[1..], b);
      AppendAssociates(head, Numbers(a[1..]), Numbers(b));
    }
  }

  lemma NumbersOfOne(n: nat)
    ensures Numbers([StateChange(n)]) == [n]
  {
    assert Numbers([StateChange(n)][1..]) == [];
  }

  ghost predicate Ascending(xs: seq<nat>) {
    forall i, j :: 0 <= i < j < |xs| ==> xs[i] < xs[j]
  }

  /** `xs` is `lo, lo + 1, lo + 2, ...`. */
  ghost predicate Consecutive(xs: seq<nat>, lo: nat) {
    forall i :: 0 <= i < |xs| ==> xs[i] == lo + i
  }
}
