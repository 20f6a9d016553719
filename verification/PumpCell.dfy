/**
  The pump's locals as the daemon keeps them: four variables that the receive loop and the drop
  reconciliation update in place. Each method is one piece of the loop body, given what it reads
  from the engine, and is tied to the steps of the pump in the step system.
 */
module PumpCell {
  import opened Wrappers
  import opened Feed
  import opened Pump

  /** A pump at `p` whose slot and engine read as given. */
  function Reading(full: bool, f: Feed, p: Locals): Conn {
    Conn(if full then Full else TakenByTeardown, 0, f, p)
  }

  /** The count and snapshot stages of a reconciliation, each against the feed it meets. */
  function Counted(f: Feed, p: Locals): Locals
    requires p.pc.Reconcile? && p.pc.stage.Count?
  {
    PumpNext(Reading(true, f, p)).pump
  }

  function Reconciled(atCount: Feed, atSnapshot: Feed, p: Locals): Locals
    requires p.pc.Reconcile? && p.pc.stage.Count?
  {
    var counted := Counted(atCount, p);
    if counted.pc.Reconcile? then PumpNext(Reading(true, atSnapshot, counted)).pump else counted
  }

  class PumpCell {
    var last: Option<VpnState>
    var watermark: nat
    var backlog: bool
    var pending: Option<Event>
    ghost var considered: nat

    ghost function View(pc: Pc): Locals
      reads this
    {
      Locals(pc, last, watermark, backlog, pending, considered)
    }

    constructor ()
      ensures View(Receive) == FRESH_CONN.pump.(pc := Receive)
    {
      last, watermark, backlog, pending, considered := None, 0, false, None, 0;
    }

    /** Decide on one state: publish it unless its like was published last. */
    method Decide(f: Feed, n: nat, state: EngineState) returns (publish: Option<VpnState>)
      requires 1 <= n <= |f.history| && f.history[n - 1] == state
      modifies this
      ensures forall pc :: View(pc) == Consider(old(View(pc)), f, n)
      ensures forall pc :: publish == ConsiderPublishes(old(View(pc)), f, n)
      ensures watermark == old(watermark) && backlog == old(backlog) && pending == old(pending)
      ensures last.Some? && Tells(last.value, state)
      ensures publish == if old(last).Some? && Tells(old(last).value, state) then None else last
    {
      var mapped := MapVpnState(state);
      publish := None;
      if last != Some(mapped) {
        publish := Some(mapped);
        last := Some(mapped);
      }
      considered := n;
    }

    /** The drop reconciliation under one slot guard; `fatal` asks for the claim. */
    method ReconcileDrops(context: Context, full: bool, atCriticals: Feed, atCount: Feed, atSnapshot: Feed)
      returns (fatal: bool, publish: Option<VpnState>)
      modifies this
      ensures fatal == (full && atCriticals.retained)
      ensures PumpNext(Reading(full, atCriticals, old(View(Reconcile(Criticals, context))))).pump.pc ==
                (if fatal then Claim else if full then Reconcile(Count, context) else Resume(context))
      ensures PumpNext(Reading(full, atCriticals, old(View(Reconcile(Criticals, context))))).feed ==
                (if fatal then atCriticals.(retained := false) else atCriticals)
      ensures !full || fatal ==> publish.None? && forall pc :: View(pc) == old(View(pc))
      ensures full && !fatal ==>
        && watermark == (if atCount.drops > old(watermark) then atCount.drops else old(watermark))
        && backlog == (old(backlog) || atCount.drops > old(watermark))
        && (!backlog || atSnapshot.history == [] ==> last == old(last) && publish.None?)
        && (backlog && atSnapshot.history != [] ==>
              last.Some? && Tells(last.value, atSnapshot.history[|atSnapshot.history| - 1]))
      ensures full && !fatal ==>
        var before := old(View(Reconcile(Count, context)));
        var counted := Counted(atCount, before);
        && View(Resume(context)) == Reconciled(atCount, atSnapshot, before)
        && publish == (if counted.pc.Reconcile? then PumpPublishes(Reading(true, atSnapshot, counted)) else None)
    {
      fatal, publish := false, None;
      if !full {
        return;
      }
      if atCriticals.retained {
        fatal := true;
        return;
      }
      if atCount.drops > watermark {
        watermark := atCount.drops;
        backlog := true;
      }
      if !backlog {
        return;
      }
      if atSnapshot.history != [] {
        var n := |atSnapshot.history|;
        publish := Decide(atSnapshot, n, atSnapshot.history[n - 1]);
      }
    }

    /** A dequeued state: suppressed in recovery mode or behind a teardown, else decided on. */
    method HandleState(f: Feed, n: nat, full: bool) returns (again: bool, publish: Option<VpnState>)
      requires 1 <= n <= |f.history|
      modifies this
      ensures var before := Reading(full, f, old(View(Handle(StateChange(n)))));
        && publish == PumpPublishes(before)
        && View(if again then Receive else Reconcile(Criticals, After)) == PumpNext(before).pump
      ensures again <==> old(backlog) || !full
      ensures again ==> publish.None? && last == old(last)
      ensures !again ==> last.Some? && Tells(last.value, f.history[n - 1])
    {
      again, publish := true, None;
      if !backlog && full {
        again := false;
        publish := Decide(f, n, f.history[n - 1]);
      }
    }

    /** One handled event and where the loop goes on: states as above, a fatal to the claim. */
    method HandleEvent(event: Event, f: Feed, full: bool) returns (next: Pc, publish: Option<VpnState>)
      requires event.StateChange? ==> 1 <= event.n <= |f.history|
      modifies this
      ensures var before := Reading(full, f, old(View(Handle(event))));
        publish == PumpPublishes(before) && View(next) == PumpNext(before).pump
      ensures next == match event {
                        case CertificateFatal => Claim
                        case OtherEvent => Reconcile(Criticals, After)
                        case StateChange(_) => if old(backlog) || !full then Receive else Reconcile(Criticals, After)
                      }
      ensures !event.StateChange? ==> publish.None? && View(next) == old(View(next))
    {
      publish := None;
      match event {
        case StateChange(n) =>
          var again;
          again, publish := HandleState(f, n, full);
          next := if again then Receive else Reconcile(Criticals, After);
        case CertificateFatal => next := Claim;
        case OtherEvent => next := Reconcile(Criticals, After);
      }
    }

    /** The event held back by the last probe, if any, comes before the queue. */
    method TakePending(f: Feed, full: bool) returns (event: Option<Event>)
      modifies this
      ensures event == old(pending)
      ensures event.Some? ==>
                View(Reconcile(Criticals, Before(event.value))) == PumpNext(Reading(full, f, old(View(Receive)))).pump
      ensures event.None? ==> View(Receive) == old(View(Receive))
    {
      event := pending;
      pending := None;
    }

    /** The disarming probe behind a quiet reconciliation. */
    method ProbeQueue(f: Feed, full: bool) returns (taken: bool)
      modifies this
      ensures taken == (full && f.queue != [])
      ensures View(Receive) == PumpNext(Reading(full, f, old(View(Probe)))).pump
      ensures backlog == (old(backlog) && !(full && f.queue == [] && !f.closed))
      ensures pending == if full && f.queue != [] then Some(f.queue[0]) else old(pending)
      ensures f.queue[if taken then 1 else 0..] == PumpNext(Reading(full, f, old(View(Probe)))).feed.queue
    {
      taken := full && f.queue != [];
      if taken {
        pending := Some(f.queue[0]);
      } else if full && !f.closed {
        backlog := false;
      }
    }
  }
}
