/** The pump's delivery discipline, kept by every engine step and every pump step. */
module PumpProofs {
  import opened Feed
  import opened Pump

  /** Queueing one more event appends to what is undelivered. */
  lemma Queued(cn: Conn, cn': Conn, event: Event)
    requires cn'.pump == cn.pump && cn'.feed.queue == cn.feed.queue + [event]
    ensures InFlight(cn') == InFlight(cn) + [event]
    ensures Undelivered(cn') == Undelivered(cn) + Numbers([event])
  {
    assert InFlight(cn') == InFlight(cn) + [event];
    NumbersOfConcat(InFlight(cn), [event]);
  }

  lemma OrderlyAfterQueueing(xs: seq<nat>, considered: nat, sent: int, backlog: bool, inStep: bool)
    requires Orderly(xs, considered, sent, backlog, inStep) && considered <= sent + 1 && sent >= 0
    ensures Orderly(xs + [sent + 1], considered, sent + 1, backlog, inStep)
  {
  }

  lemma OrderlyAfterDeciding(n: nat, xs: seq<nat>, considered: nat, sent: int, inStep: bool)
    requires Orderly([n] + xs, considered, sent, false, inStep)
    ensures considered <= n && Orderly(xs, n, sent, false, inStep)
  {
    var all := [n] + xs;
    assert all[0] == n;
    assert forall i :: 0 <= i < |xs| ==> xs[i] == all[i + 1];
  }

  lemma OrderlyAfterSuppressing(n: nat, xs: seq<nat>, considered: nat, sent: int)
    requires Orderly([n] + xs, considered, sent, true, false)
    ensures Orderly(xs, considered, sent, true, false)
  {
    var all := [n] + xs;
    assert forall i :: 0 <= i < |xs| ==> xs[i] == all[i + 1];
  }

  lemma OrderFrame(cn: Conn, cn': Conn)
    requires InOrder(cn) && InFlight(cn') == InFlight(cn)
    requires cn'.pump.considered == cn.pump.considered && cn'.pump.backlog == cn.pump.backlog
    requires Sent(cn'.feed) >= Sent(cn.feed)
    requires InStep(cn') ==> InStep(cn) && Sent(cn'.feed) == Sent(cn.feed)
    ensures InOrder(cn')
  {
  }

  // ---------------------------------------------------------------------------------------
  // Engine steps

  lemma ForwardKeepsOrder(cn: Conn)
    requires BooksOk(cn) && InOrder(cn) && FeedEnabled(cn.feed, Forward)
    ensures InOrder(cn.(feed := FeedNext(cn.feed, Forward)))
  {
    var cn' := cn.(feed := FeedNext(cn.feed, Forward));
    var event := cn.feed.sender.event;
    if |cn.feed.queue| >= EVENT_CHANNEL_BOUND {
      OrderFrame(cn, cn');
    } else if event.StateChange? {
      QueuedStateKeepsOrder(cn, cn');
    } else {
      Queued(cn, cn', event);
      assert Undelivered(cn') == Undelivered(cn);
    }
  }

  lemma QueuedStateKeepsOrder(cn: Conn, cn': Conn)
    requires BooksOk(cn) && InOrder(cn) && cn'.pump == cn.pump && cn'.feed.drops == cn.feed.drops
    requires cn.feed.sender == Sending(StateChange(|cn.feed.history|)) && cn'.feed.sender.Ready?
    requires cn'.feed.queue == cn.feed.queue + [cn.feed.sender.event]
    requires cn'.feed.history == cn.feed.history && cn.feed.history != []
    ensures InOrder(cn')
  {
    var xs, ys, sent := Undelivered(cn), Undelivered(cn'), Sent(cn.feed);
    assert ys == xs + [sent + 1] by {
      Queued(cn, cn', cn.feed.sender.event);
      NumbersOfOne(|cn.feed.history|);
    }
    AppendKeepsOrder(cn, cn', xs, ys, sent);
  }

  lemma AppendKeepsOrder(cn: Conn, cn': Conn, xs: seq<nat>, ys: seq<nat>, sent: int)
    requires Orderly(xs, cn.pump.considered, sent, cn.pump.backlog, InStep(cn))
    requires sent >= 0 && cn.pump.considered <= sent + 1 && ys == xs + [sent + 1] && ys == Undelivered(cn')
    requires Sent(cn'.feed) == sent + 1 && cn'.pump == cn.pump && InStep(cn') == InStep(cn)
    ensures InOrder(cn')
  {
    OrderlyAfterQueueing(xs, cn.pump.considered, sent, cn.pump.backlog, InStep(cn));
  }

  lemma EngineKeepsOrder(cn: Conn, step: FeedStep)
    requires BooksOk(cn) && InOrder(cn) && FeedEnabled(cn.feed, step)
    ensures InOrder(cn.(feed := FeedNext(cn.feed, step)))
  {
    if step.Forward? {
      ForwardKeepsOrder(cn);
    } else {
      var cn' := cn.(feed := FeedNext(cn.feed, step));
      assert InFlight(cn') == InFlight(cn);
      OrderFrame(cn, cn');
    }
  }

  lemma EngineKeepsBooks(cn: Conn, step: FeedStep)
    requires BooksOk(cn) && FeedEnabled(cn.feed, step)
    ensures BooksOk(cn.(feed := FeedNext(cn.feed, step)))
  {
  }

  lemma EngineKeepsFatal(cn: Conn, step: FeedStep)
    requires FatalKept(cn) && FeedEnabled(cn.feed, step)
    ensures FatalKept(cn.(feed := FeedNext(cn.feed, step)))
  {
    var cn' := cn.(feed := FeedNext(cn.feed, step));
    if step.Forward? && |cn.feed.queue| < EVENT_CHANNEL_BOUND {
      Queued(cn, cn', cn.feed.sender.event);
    } else {
      assert InFlight(cn') == InFlight(cn);
    }
  }

  lemma EngineStepDelivers(cn: Conn, step: FeedStep)
    requires Delivering(cn) && FeedEnabled(cn.feed, step)
    ensures Delivering(cn.(feed := FeedNext(cn.feed, step)))
  {
    EngineKeepsBooks(cn, step);
    EngineKeepsFatal(cn, step);
    if InOrder(cn) {
      EngineKeepsOrder(cn, step);
    }
  }

  lemma InstallDelivers(cn: Conn)
    requires Delivering(cn) && cn.pump.pc.NotStarted?
    ensures Delivering(At(cn.(slot := Full), Receive))
  {
    assert InFlight(At(cn.(slot := Full), Receive)) == InFlight(cn);
  }

  // ---------------------------------------------------------------------------------------
  // Pump steps

  /** Apart from the event it decides, a pump step that stays in the loop loses no event. */
  lemma InFlightAfterStep(cn: Conn)
    requires LocalsOk(cn) && cn.slot.Full? && Looping(cn.pump.pc)
    requires !PumpNext(cn).pump.pc.Claim? && !cn.pump.pc.Claim?
    ensures InFlight(cn) == (if cn.pump.pc.Handle? then [cn.pump.pc.event] else []) + InFlight(PumpNext(cn))
  {
    match cn.pump.pc
    case Receive => InFlightAfterReceive(cn);
    case Probe => InFlightAfterProbe(cn);
    case Reconcile(_, _) => assert cn.pump.pending.None?;
    case Handle(_) => assert cn.pump.pending.None?;
  }

  lemma InFlightAfterReceive(cn: Conn)
    requires cn.slot.Full? && cn.pump.pc.Receive?
    ensures InFlight(ReceiveNext(cn)) == InFlight(cn)
  {
    var queue := cn.feed.queue;
    if cn.pump.pending.Some? {
      assert InFlight(cn) == [cn.pump.pending.value] + queue;
    } else if queue != [] {
      assert queue == [queue[0]] + queue[1..];
    }
  }

  lemma InFlightAfterProbe(cn: Conn)
    requires cn.pump.pending.None? && cn.pump.pc.Probe?
    ensures InFlight(ProbeNext(cn)) == InFlight(cn)
  {
  }

  lemma PumpKeepsBooks(cn: Conn)
    requires Delivering(cn) && cn.slot.Full? && Looping(cn.pump.pc) && PumpNext(cn).slot.Full?
    ensures BooksOk(PumpNext(cn))
  {
    if cn.pump.pc.Handle? && cn.pump.pc.event.StateChange? {
      DecidedNumber(cn);
      HandleKeepsBooks(cn, cn.pump.pc.event.n);
    } else {
      OtherStepsKeepBooks(cn);
    }
  }

  lemma HandleKeepsBooks(cn: Conn, n: nat)
    requires BooksOk(cn) && cn.pump.pc == Handle(StateChange(n)) && 1 <= n <= |cn.feed.history|
    ensures BooksOk(PumpNext(cn))
  {
  }

  lemma OtherStepsKeepBooks(cn: Conn)
    requires BooksOk(cn) && cn.slot.Full? && Looping(cn.pump.pc) && PumpNext(cn).slot.Full?
    requires !(cn.pump.pc.Handle? && cn.pump.pc.event.StateChange?)
    ensures BooksOk(PumpNext(cn))
  {
  }

  /** The number of a state in hand is the oldest undelivered one. */
  lemma DecidedNumber(cn: Conn)
    requires cn.pump.pc.Handle? && cn.pump.pc.event.StateChange?
    ensures |Undelivered(cn)| > 0 && Undelivered(cn)[0] == cn.pump.pc.event.n
  {
    var rest := (if cn.pump.pending.Some? then [cn.pump.pending.value] else []) + cn.feed.queue;
    assert InFlight(cn) == [cn.pump.pc.event] + rest;
    NumbersOfConcat([cn.pump.pc.event], rest);
    NumbersOfOne(cn.pump.pc.event.n);
  }

  lemma StayingKeepsFatal(cn: Conn)
    requires LocalsOk(cn) && FatalKept(cn) && cn.slot.Full? && Looping(cn.pump.pc)
    requires !PumpNext(cn).pump.pc.Claim? && !cn.pump.pc.Claim?
    ensures FatalKept(PumpNext(cn))
  {
    var cn' := PumpNext(cn);
    InFlightAfterStep(cn);
    assert CertificateFatal in InFlight(cn) <==> CertificateFatal in InFlight(cn') by {
      assert cn.pump.pc.Handle? ==> !cn.pump.pc.event.CertificateFatal?;
    }
    SameFatalSources(cn);
  }

  lemma SameFatalSources(cn: Conn)
    requires cn.slot.Full? && Looping(cn.pump.pc) && !PumpNext(cn).pump.pc.Claim?
    ensures var f, f' := cn.feed, PumpNext(cn).feed;
      f'.raised == f.raised && f'.closed == f.closed && f'.retained == f.retained && f'.sender == f.sender
  {
  }

  lemma ClaimingKeepsFatal(cn: Conn)
    requires LocalsOk(cn) && FatalKept(cn) && cn.slot.Full? && Looping(cn.pump.pc)
    requires PumpNext(cn).pump.pc.Claim?
    ensures FatalKept(PumpNext(cn))
  {
    if cn.pump.pc.Receive? {
      InFlightAfterReceive(cn);
    } else if cn.pump.pc.Handle? {
      assert InFlight(cn)[0] == CertificateFatal;
    }
  }

  lemma PumpKeepsFatal(cn: Conn)
    requires Delivering(cn) && cn.slot.Full? && Looping(cn.pump.pc) && PumpNext(cn).slot.Full?
    ensures FatalKept(PumpNext(cn))
  {
    if PumpNext(cn).pump.pc.Claim? {
      ClaimingKeepsFatal(cn);
    } else {
      StayingKeepsFatal(cn);
    }
  }

  lemma HandleKeepsOrder(cn: Conn, event: Event)
    requires BooksOk(cn) && InOrder(cn) && cn.slot.Full? && cn.pump.pc == Handle(event)
    requires !event.CertificateFatal?
    ensures InOrder(HandleNext(cn, event))
    ensures HandleNext(cn, event).pump.considered >= cn.pump.considered
  {
    var cn' := HandleNext(cn, event);
    InFlightAfterStep(cn);
    NumbersOfConcat([event], InFlight(cn'));
    if !event.StateChange? {
      assert Undelivered(cn') == Undelivered(cn);
    } else {
      NumbersOfOne(event.n);
      if cn.pump.backlog {
        OrderlyAfterSuppressing(event.n, Undelivered(cn'), cn.pump.considered, Sent(cn.feed));
      } else {
        OrderlyAfterDeciding(event.n, Undelivered(cn'), cn.pump.considered, Sent(cn.feed), InStep(cn));
      }
    }
  }

  lemma ReconcileKeepsOrder(cn: Conn)
    requires BooksOk(cn) && InOrder(cn) && cn.slot.Full? && cn.pump.pc.Reconcile?
    requires !PumpNext(cn).pump.pc.Claim?
    ensures InOrder(PumpNext(cn))
  {
    InFlightAfterStep(cn);
    assert InFlight(PumpNext(cn)) == InFlight(cn);
    if cn.pump.pc.stage.Criticals? {
      OrderFrame(cn, PumpNext(cn));
    } else {
      ReconcileFrame(cn, PumpNext(cn));
    }
  }

  /** Arming recovery, and moving on to a newer snapshot in recovery, leave the order alone. */
  lemma ReconcileFrame(cn: Conn, cn': Conn)
    requires InOrder(cn) && InFlight(cn') == InFlight(cn) && cn'.feed == cn.feed
    requires cn'.pump.considered == cn.pump.considered || cn'.pump.backlog
    requires cn.pump.backlog ==> cn'.pump.backlog
    requires InStep(cn') ==> InStep(cn)
    ensures InOrder(cn')
  {
  }

  lemma ReceiveKeepsOrder(cn: Conn)
    requires BooksOk(cn) && InOrder(cn) && cn.slot.Full? && cn.pump.pc.Receive?
    requires !PumpNext(cn).pump.pc.Claim?
    ensures InOrder(PumpNext(cn))
  {
    InFlightAfterStep(cn);
    OrderFrame(cn, PumpNext(cn));
  }

  lemma ProbeKeepsOrder(cn: Conn)
    requires BooksOk(cn) && InOrder(cn) && cn.slot.Full? && cn.pump.pc.Probe?
    ensures InOrder(PumpNext(cn))
  {
    InFlightAfterStep(cn);
    if cn.feed.queue != [] || cn.feed.closed {
      OrderFrame(cn, PumpNext(cn));
    } else {
      Disarmed(cn, PumpNext(cn));
    }
  }

  lemma Disarmed(cn: Conn, cn': Conn)
    requires BooksOk(cn) && InOrder(cn) && cn.pump.pc.Probe? && cn.feed.queue == []
    requires cn' == cn.(pump := cn.pump.(backlog := false, pc := Receive))
    ensures InOrder(cn')
  {
    assert InFlight(cn') == [];
    assert Undelivered(cn') == [];
    if InStep(cn') {
      assert cn.pump.backlog || InStep(cn);
      NothingUndelivered(cn);
    }
  }

  /** At a probe that finds the queue empty the last considered state is the last sent, or the one being sent. */
  lemma NothingUndelivered(cn: Conn)
    requires BooksOk(cn) && InOrder(cn) && cn.pump.pc.Probe? && cn.feed.queue == []
    requires cn.pump.backlog || InStep(cn)
    ensures Sent(cn.feed) <= cn.pump.considered <= Sent(cn.feed) + 1
  {
    assert InFlight(cn) == [];
    assert Undelivered(cn) == [];
    if InStep(cn) {
      assert Exact([], cn.pump.considered, Sent(cn.feed));
    }
  }

  lemma PumpKeepsOrder(cn: Conn)
    requires Delivering(cn) && cn.slot.Full? && Looping(cn.pump.pc) && PumpNext(cn).slot.Full?
    ensures PumpNext(cn).pump.pc.Claim? || InOrder(PumpNext(cn))
    ensures PumpNext(cn).pump.considered >= cn.pump.considered
  {
    if !PumpNext(cn).pump.pc.Claim? {
      match cn.pump.pc
      case Receive => ReceiveKeepsOrder(cn);
      case Reconcile(_, _) => ReconcileKeepsOrder(cn);
      case Handle(event) => HandleKeepsOrder(cn, event);
      case Probe => ProbeKeepsOrder(cn);
    }
  }

  /**
    The states a pump considers never go backwards, and delivery stays exact: one pump step on
    a connection nobody has taken, whatever the step.
   */
  lemma PumpStepDelivers(cn: Conn)
    requires Delivering(cn) && cn.slot.Full? && Looping(cn.pump.pc)
    ensures PumpNext(cn).slot.Full? ==> Delivering(PumpNext(cn))
    ensures PumpNext(cn).pump.considered >= cn.pump.considered
  {
    if PumpNext(cn).slot.Full? {
      PumpKeepsBooks(cn);
      PumpKeepsOrder(cn);
      PumpKeepsFatal(cn);
    }
  }
}
