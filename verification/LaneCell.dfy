/**
  The lane record as the daemon keeps it: mutable fields behind one mutex, each method one
  critical section. Every method is tied to the record function the step system uses, so what is
  proved of runs is proved of these sections in any interleaving.
 */
module LaneCell {
  import opened Wrappers
  import opened Lane

  class LaneCell {
    var active: Option<ConnId>
    var owner: Option<Uid>
    var reconnecting: bool
    var disconnecting: bool
    var drainInProgress: bool

    ghost function View(): LaneState
      reads this
    {
      LaneState(active, owner, reconnecting, disconnecting, drainInProgress)
    }

    constructor ()
      ensures View() == EMPTY_LANE
    {
      active, owner := None, None;
      reconnecting, disconnecting, drainInProgress := false, false, false;
    }

    /** connect, first section: refuse, or arm the window and take the entry. */
    method AdmitConnect(uid: Uid, draining: bool) returns (refusal: Option<Refusal>, superseded: Option<ConnId>)
      modifies this
      ensures refusal == ConnectRefusal(old(View()), draining, uid)
      ensures var foreign := old(owner).Some? && old(owner).value != uid;
        && (foreign <==> refusal == Some(NotOwner(if foreign then old(owner).value else uid)))
        && (!foreign && draining <==> refusal == Some(DaemonDraining))
        && (!foreign && !draining && old(reconnecting) <==> refusal == Some(Reconnecting))
        && (!foreign && !draining && !old(reconnecting) && old(disconnecting) <==> refusal == Some(DisconnectRunning))
        && (!foreign && !draining && !old(reconnecting) && !old(disconnecting) <==> refusal.None?)
      ensures refusal.Some? ==> View() == old(View()) && superseded.None?
      ensures refusal.None? ==> View() == TakenForConnect(old(View())) && superseded == old(active)
      ensures refusal.None? ==>
              View() == LaneState(None, None, true, old(disconnecting), old(drainInProgress))
    {
      superseded := None;
      if owner.Some? && owner.value != uid {
        return Some(NotOwner(owner.value)), None;
      }
      if draining {
        return Some(DaemonDraining), None;
      }
      if reconnecting {
        return Some(Reconnecting), None;
      }
      if disconnecting {
        return Some(DisconnectRunning), None;
      }
      reconnecting := true;
      superseded := active;
      active := None;
      owner := None;
      refusal := None;
    }

    /** connect, second section: give up if a drain has started. */
    method Recheck(draining: bool) returns (refused: bool)
      modifies this
      ensures refused == draining
      ensures View() == if draining then old(View()).(reconnecting := false) else old(View()).(owner := None)
    {
      if draining {
        reconnecting := false;
        return true;
      }
      owner := None;
      refused := false;
    }

    /** connect, on an engine failure. */
    method Abandon()
      modifies this
      ensures View() == old(View()).(reconnecting := false)
    {
      reconnecting := false;
    }

    /** connect, last section: entry, owner and flag under one guard. */
    method Install(c: ConnId, uid: Uid)
      modifies this
      ensures View() == Installed(old(View()), c, uid)
      ensures View() == LaneState(Some(c), Some(uid), false, old(disconnecting), old(drainInProgress))
    {
      active := Some(c);
      owner := Some(uid);
      reconnecting := false;
    }

    /** disconnect, first section: refuse, or take the entry and arm the window for a real one. */
    method AdmitDisconnect(uid: Uid, draining: bool) returns (refusal: Option<Refusal>, taken: Option<ConnId>)
      modifies this
      ensures refusal == DisconnectRefusal(old(View()), draining, uid)
      ensures var open := !draining && !old(reconnecting) && !old(disconnecting);
        var foreign := old(owner).Some? && old(owner).value != uid;
        && (draining <==> refusal == Some(DaemonDraining))
        && (!draining && old(reconnecting) <==> refusal == Some(Reconnecting))
        && (!draining && !old(reconnecting) && old(disconnecting) <==> refusal == Some(DisconnectRunning))
        && (open && foreign <==> refusal == Some(NotOwner(if foreign then old(owner).value else uid)))
        && (open && !foreign <==> refusal.None?)
      ensures refusal.Some? ==> View() == old(View()) && taken.None?
      ensures refusal.None? ==> View() == TakenForDisconnect(old(View())) && taken == old(active)
      ensures refusal.None? ==>
              View() == LaneState(None, None, old(reconnecting), taken.Some?, old(drainInProgress))
    {
      taken := None;
      if draining {
        return Some(DaemonDraining), None;
      }
      if reconnecting {
        return Some(Reconnecting), None;
      }
      if disconnecting {
        return Some(DisconnectRunning), None;
      }
      if owner.Some? && owner.value != uid {
        return Some(NotOwner(owner.value)), None;
      }
      taken := active;
      active := None;
      if taken.Some? {
        disconnecting := true;
      }
      owner := None;
      refusal := None;
    }

    method ClearDisconnecting()
      modifies this
      ensures View() == old(View()).(disconnecting := false)
    {
      disconnecting := false;
    }

    /** drain, one round of its loop: wait, or check the windows and take under one guard. */
    method TakeForDrain() returns (waits: bool, taken: Option<ConnId>)
      modifies this
      ensures waits == DrainWaits(old(View()))
      ensures waits ==> View() == old(View()) && taken.None?
      ensures !waits ==> View() == TakenForDrain(old(View())) && taken == old(active)
      ensures waits <==> old(drainInProgress) || old(reconnecting) || old(disconnecting)
      ensures !waits ==> View() == LaneState(None, None, false, false, taken.Some?)
    {
      if drainInProgress || reconnecting || disconnecting {
        return true, None;
      }
      if active.Some? {
        drainInProgress := true;
      }
      owner := None;
      taken := active;
      active := None;
      waits := false;
    }

    method ClearDraining()
      modifies this
      ensures View() == old(View()).(drainInProgress := false)
    {
      drainInProgress := false;
    }

    /** A pump that claimed its own connection retires the entry, if it is still its own. */
    method RetireEntry(c: ConnId)
      modifies this
      ensures View() == RetiredByPump(old(View()), c)
      ensures old(active) == Some(c) ==> View() == old(View()).(active := None, owner := None)
      ensures old(active) != Some(c) ==> View() == old(View())
    {
      if active == Some(c) {
        active := None;
        owner := None;
      }
    }
  }
}
