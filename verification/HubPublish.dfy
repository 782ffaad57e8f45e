/** Publishing what a change of settings, a revocation or an access request did to the store. */
module HubPublish {
  import opened Prelude
  import opened Devices
  import opened Frames
  import opened HubModel
  import opened HubRouting
  import opened HubRecords
  import opened HubWire
  import opened HubLease
  import opened HubSteps
  import opened HubCalls
  import opened HubIdentity
  import O = OutboxModel

  /** The gate of `id` is held by a change that stored `record`. */
  predicate Publishes(h: Hub, id: string, record: Device) {
    && id in h.gates && h.gates[id].work.Changing? && !h.gates[id].work.change.Revoke?
    && h.gates[id].progress == Good(record) && Stored(h.store, id) == Some(record)
  }

  lemma RecordedKeepsRouting(h: Hub, id: string, record: Device)
    requires Routing(h) && id in h.devices
    ensures Routing(Recorded(h, id, record))
  {
    RecordedFields(h, id, record);
    hide Routing, Recorded;
    var h' := Recorded(h, id, record);
    var slot := h.devices[id].(record := record);
    SlotKeepsRouting(h, id, slot, h'.access);
    var h1 := h.(devices := h.devices[id := slot], access := h'.access);
    assert SameRoutes(h1.inflight, h'.inflight);
    RoutesKeepRouting(h1, h'.inflight);
  }

  lemma RecordedMoves(h: Hub, id: string, record: Device)
    requires Sane(h) && id in h.devices && Publishes(h, id, record)
    ensures Sane(Recorded(h, id, record)) && Moves(h, Recorded(h, id, record))
  {
    hide Routing, Records, Wired, Quiet, Narrows, Discreet, Recorded, Stored;
    RecordedFields(h, id, record);
    var h' := Recorded(h, id, record);
    RecordedKeepsRouting(h, id, record);
    RecordedKeepsRecords(h, id, record);
    RecordedNarrows(h, id, record);
    FewerRoutesKeepWired(h, h');
    SilenceIsQuiet(h, h');
    SilenceIsDiscreet(h, h');
  }

  lemma ReadyMoves(h: Hub, id: string)
    requires Sane(h) && id in h.devices
    ensures var h' := h.(devices := h.devices[id := h.devices[id].(ready := true)]); Sane(h') && Moves(h, h')
  {
    hide Routing, Records, Wired, Quiet, Narrows, Discreet;
    var h' := h.(devices := h.devices[id := h.devices[id].(ready := true)]);
    SlotKeepsRouting(h, id, h'.devices[id], h.access);
    ReadyKeepsRecords(h, id);
    ReadyNarrows(h, id);
    FewerRoutesKeepWired(h, h');
    SilenceIsQuiet(h, h');
    SilenceIsDiscreet(h, h');
  }

  /** Apart from routes and outboxes, a connection may have lost its device. */
  predicate AtMostStopped(h: Hub, h': Hub) {
    && h' == h.(net := h'.net, wire := h'.wire, requests := h'.requests, active := h'.active,
                inflight := h'.inflight, devices := h'.devices)
    && h'.inflight.Keys <= h.inflight.Keys && h'.devices.Keys == h.devices.Keys
    && forall id <- h.devices :: h'.devices[id] == h.devices[id]
         || h'.devices[id] == h.devices[id].(conn := None, online := false)
  }

  lemma ConfirmMoves(h: Hub, from: Conn, f: Frame, order: seq<string>)
    requires Sane(h) && RoutesAt(h, from) <= Members(order) && f.exec == ""
    ensures var (h', ok) := Confirm(h, from, f, order);
      Sane(h') && Moves(h, h') && AtMostStopped(h, h') && (ok ==> h'.devices == h.devices)
  {
    hide Sane, Moves, Put, StopRouting, RoutesAt, DeviceOf;
    var (h1, sent) := Put(h, from, O.Send(f), "");
    PutMoves(h, from, O.Send(f));
    if sent != O.Accepted {
      assert RoutesAt(h1, from) == RoutesAt(h, from) by { SameRoutesAt(h, h1, from); }
      StopMoves(h1, from, order);
      var h2 := StopRouting(h1, from, order);
      PutMoves(h2, from, O.CloseIt);
      MovesOn(h, h1, h2);
      MovesOn(h, h2, CloseConn(h2, from));
      StoppedIsLittle(h1, h2, from);
    }
  }

  lemma StoppedIsLittle(h: Hub, h': Hub, from: Conn)
    requires Stopped(h, h', from)
    ensures AtMostStopped(h, h')
  {
  }

  lemma SameRoutesAt(h: Hub, h': Hub, from: Conn)
    requires h'.inflight == h.inflight && h'.devices == h.devices && h'.roles == h.roles
    ensures RoutesAt(h', from) == RoutesAt(h, from)
  {
  }

  /** A record that equals the stored one still does after its connection is gone. */
  lemma StillStored(h: Hub, h': Hub, id: string)
    requires AtMostStopped(h, h') && (id in h.devices ==> Stored(h.store, id) == Some(h.devices[id].record))
    ensures id in h'.devices && h'.devices[id].conn.Some? ==> Stored(h'.store, id) == Some(h'.devices[id].record)
  {
    hide Stored;
  }

  // ----- Settings --------------------------------------------------------------------------------------

  lemma RoutesOfConnection(h: Hub, id: string, c: Conn)
    requires c in h.roles && h.roles[c] == DeviceRole(id)
    ensures RoutesAt(h, c) <= RoutesOf(h, id)
  {
  }

  lemma RecordedRoutesOf(h: Hub, id: string, record: Device)
    requires id in h.devices
    ensures RoutesOf(Recorded(h, id, record), id) == RoutesOf(h, id)
  {
    RecordedFields(h, id, record);
    hide Recorded;
  }

  lemma ConfirmRecorded(h: Hub, id: string, c: Conn, record: Device, f: Frame, order: seq<string>, ready: bool)
    requires Sane(h) && id in h.devices && c in h.roles && h.roles[c] == DeviceRole(id)
    requires Stored(h.store, id) == Some(h.devices[id].record) && RoutesOf(h, id) <= Members(order) && f.exec == ""
    ensures var (h1, ok) := Confirm(h, c, f, order);
      var h2 := if ok && ready && id in h1.devices then h1.(devices := h1.devices[id := h1.devices[id].(ready := true)]) else h1;
      Sane(Release(h2, id)) && Moves(h, Release(h2, id))
  {
    hide Sane, Moves, Confirm, RoutesAt, RoutesOf, Stored, Release;
    RoutesOfConnection(h, id, c);
    ConfirmMoves(h, c, f, order);
    var (h1, ok) := Confirm(h, c, f, order);
    StillStored(h, h1, id);
    if ok && ready {
      ReadyMoves(h1, id);
      var h2 := h1.(devices := h1.devices[id := h1.devices[id].(ready := true)]);
      MovesOn(h, h1, h2);
      ReleaseMoves(h2, id);
      MovesOn(h, h2, Release(h2, id));
    } else {
      ReleaseMoves(h1, id);
      MovesOn(h, h1, Release(h1, id));
    }
  }

  lemma PublishSettingsMoves(h: Hub, id: string, record: Device, order: seq<string>)
    requires Sane(h) && Publishes(h, id, record) && RoutesOf(h, id) <= Members(order)
    ensures var h' := Release(PublishSettings(h, id, h.gates[id], record, order), id); Sane(h') && Moves(h, h')
  {
    hide Sane, Moves, Confirm, RoutesOf, Stored, Release, SetRecord, RevokeForeground;
    GateMeans(h, id);
    var p := h.gates[id];
    if id !in h.devices {
      ReleaseMoves(h, id);
    } else {
      RecordedMoves(h, id, record);
      RecordedRoutesOf(h, id, record);
      RecordedFields(h, id, record);
      var h1 := Recorded(h, id, record);
      ConfirmRecorded(h1, id, p.conn, record, Reply(SettingsResult, "", 0), order, true);
      MovesOn(h, h1, Release(PublishSettings(h, id, p, record, order), id));
    }
  }

  // ----- Revocation ------------------------------------------------------------------------------------

  lemma ForgetMoves(h: Hub, id: string)
    requires Sane(h) && RoutesOf(h, id) == {}
    ensures var h' := h.(devices := h.devices - {id}, access := h.access - {id}, gates := h.gates - {id});
      Sane(h') && Moves(h, h')
  {
    hide Routing, Records, Wired, Quiet, Narrows, Discreet, RoutesOf;
    var h1 := h.(devices := h.devices - {id}, access := h.access - {id});
    var h' := h1.(gates := h.gates - {id});
    ForgetKeepsRouting(h, id);
    ReleaseKeepsRouting(h1, id);
    ForgetKeepsRecords(h, id);
    FewerRoutesKeepWired(h, h');
    SilenceIsQuiet(h, h');
    SilenceIsDiscreet(h, h');
    assert h'.devices - {id} == h.devices - {id} && h'.access - {id} == h.access - {id};
    DetachNarrows(h, h', id);
  }

  lemma PublishRevokeMoves(h: Hub, id: string, order: seq<string>)
    requires Sane(h) && id in h.gates && h.gates[id].work.Changing? && RoutesOf(h, id) <= Members(order)
    ensures var h' := Release(PublishRevoke(h, id, h.gates[id], order), id); Sane(h') && Moves(h, h')
  {
    hide Sane, Moves, FailDevice, Put, RoutesOf, Stored;
    GateMeans(h, id);
    var p := h.gates[id];
    if id !in h.devices {
      ReleaseMoves(h, id);
    } else {
      var h1 := FailDevice(h, order, DEVICE_OFFLINE);
      FailDeviceMoves(h, order, DEVICE_OFFLINE);
      NoRoutesLeft(h, h1, order, id);
      PutMoves(h1, p.conn, O.CloseIt);
      var h2 := CloseConn(h1, p.conn);
      SameRoutesOf(h1, h2, id);
      MovesOn(h, h1, h2);
      ForgetMoves(h2, id);
      MovesOn(h, h2, h2.(devices := h2.devices - {id}, access := h2.access - {id}, gates := h2.gates - {id}));
    }
  }

  // ----- Ownership and shares --------------------------------------------------------------------------

  /** Everything the invalidation of a device's callers may change. */
  predicate CallersEnd(h: Hub, h': Hub) {
    && h' == h.(net := h'.net, wire := h'.wire, requests := h'.requests, active := h'.active,
                inflight := h'.inflight, clients := h'.clients)
    && h'.inflight.Keys <= h.inflight.Keys
  }

  lemma CallsGoWithRoutes(h: Hub, id: string, c: Conn)
    requires Routing(h) && RoutesOf(h, id) == {} && (c in h.clients ==> h.clients[c].target == id)
    ensures RoutesFor(h, c) == {}
  {
    hide Inverse, DevicesHeld, IssuesHeld, Counted, SlotRoles, ClientRoles, GateRoles, Joiners, IssueRoles, Known;
    forall r <- h.inflight ensures h.inflight[r].client != c {
      assert r !in RoutesOf(h, id);
    }
  }

  lemma InvalidateMoves(h: Hub, id: string, order: seq<string>, members: seq<Conn>)
    requires Sane(h) && RoutesOf(h, id) <= Members(order) && ClientsListed(h, members, id)
    ensures var h' := Invalidate(h, order, members);
      Sane(h') && Moves(h, h') && CallersEnd(h, h') && RoutesOf(h', id) == {}
  {
    hide Routing, Records, Wired, Moves, InvalidateRoutes, RemoveClients, RoutesOf, RoutesFor;
    var h1 := InvalidateRoutes(h, order);
    InvalidateRoutesMoves(h, order);
    NoRoutesLeft(h, h1, order, id);
    forall c <- members ensures RoutesFor(h1, c) == {} {
      assert c in ClientsOf(h, id);
      CallsGoWithRoutes(h1, id, c);
    }
    RemoveClientsMoves(h1, members);
    var h2 := RemoveClients(h1, members);
    SameRoutesOf(h1, h2, id);
    MovesOn(h, h1, h2);
  }

  lemma NothingToRevoke(h: Hub, id: string)
    requires RoutesOf(h, id) == {}
    ensures RevokeForeground(h, id) == h
  {
    forall r <- h.inflight ensures h.inflight[r].device != id {
      assert r !in RoutesOf(h, id);
    }
    assert RevokeForeground(h, id).inflight == h.inflight;
  }

  /** An access request never switches inbound on a device that is connected, and a device that is not
      has no routes. */
  lemma SetRecordIsRecorded(h: Hub, id: string, record: Device)
    requires Sane(h) && id in h.devices && Publishes(h, id, record) && h.gates[id].work.change.Manages?
    ensures SetRecord(h, id, record) == Recorded(h, id, record)
  {
    GateMeans(h, id);
    if h.devices[id].conn.None? {
      NoRoutesOffline(h, id);
      hide Sane, Stored, RevokeForeground;
      SameRoutesOf(h, SetRecord(h, id, record), id);
      NothingToRevoke(SetRecord(h, id, record), id);
    } else {
      hide Sane, Stored, RevokeForeground;
    }
  }

  lemma NoRoutesOffline(h: Hub, id: string)
    requires Sane(h) && id in h.devices && h.devices[id].conn.None?
    ensures RoutesOf(h, id) == {}
  {
    hide Inverse, CallersHeld, IssuesHeld, Counted, SlotRoles, ClientRoles, GateRoles, Joiners, IssueRoles, Known, Records, Wired;
  }

  lemma SetAndConfirm(h: Hub, id: string, record: Device, f: Frame, order: seq<string>)
    requires Sane(h) && id in h.devices && Publishes(h, id, record) && h.gates[id].work.change.Manages?
    requires RoutesOf(h, id) <= Members(order) && f.exec == ""
    ensures var h' := Release(Confirm(SetRecord(h, id, record), h.gates[id].conn, f, order).0, id);
      Sane(h') && Moves(h, h')
  {
    hide Sane, Moves, Confirm, RoutesOf, Stored, Release, SetRecord, RevokeForeground, Recorded;
    GateMeans(h, id);
    SetRecordIsRecorded(h, id, record);
    RecordedMoves(h, id, record);
    RecordedRoutesOf(h, id, record);
    RecordedFields(h, id, record);
    var h1 := Recorded(h, id, record);
    ConfirmRecorded(h1, id, h.gates[id].conn, record, f, order, false);
    MovesOn(h, h1, Release(Confirm(h1, h.gates[id].conn, f, order).0, id));
  }

  lemma ConfirmOnly(h: Hub, id: string, f: Frame, order: seq<string>)
    requires Sane(h) && id in h.gates && h.gates[id].work.Changing? && id !in h.devices && f.exec == ""
    ensures var h' := Release(Confirm(h, h.gates[id].conn, f, order).0, id); Sane(h') && Moves(h, h')
  {
    hide Sane, Moves, Confirm, Stored, Release;
    GateMeans(h, id);
    var c := h.gates[id].conn;
    assert RoutesAt(h, c) == {};
    ConfirmMoves(h, c, f, order);
    var h1 := Confirm(h, c, f, order).0;
    ReleaseMoves(h1, id);
    MovesOn(h, h1, Release(h1, id));
  }

  lemma PublishAccessMoves(h: Hub, id: string, record: Device, order: seq<string>, members: seq<Conn>, rest: nat)
    requires Sane(h) && Publishes(h, id, record) && h.gates[id].work.change.Manages?
    requires RoutesOf(h, id) <= Members(order) && ClientsListed(h, members, id)
    ensures var h' := Release(PublishAccess(h, id, h.gates[id], record, order, members, rest), id); Sane(h') && Moves(h, h')
  {
    hide Sane, Moves, Confirm, Invalidate, SetRecord, RoutesOf, Stored, Release, ClientsListed;
    GateMeans(h, id);
    var p := h.gates[id];
    var f := Reply(AccessResult, "", rest);
    if id !in h.devices {
      ConfirmOnly(h, id, f, order);
    } else if p.work.expected.ownershipId != record.ownershipId {
      InvalidateMoves(h, id, order, members);
      var h1 := Invalidate(h, order, members);
      SetAndConfirm(h1, id, record, f, []);
      MovesOn(h, h1, Release(Confirm(SetRecord(h1, id, record), p.conn, f, []).0, id));
    } else {
      SetAndConfirm(h, id, record, f, order);
    }
  }

  // ----- Failures --------------------------------------------------------------------------------------

  /** Once routing for the connection of a change has stopped, its gate can be given up. */
  lemma StoppedAndReleased(h: Hub, h1: Hub, id: string)
    requires Sane(h) && id in h.gates && h.gates[id].work.Changing?
    requires Sane(h1) && Moves(h, h1) && Stopped(h, h1, h.gates[id].conn)
    ensures Sane(Release(h1, id)) && Moves(h, Release(h1, id))
  {
    hide Sane, Moves, Stored, Release;
    GateMeans(h, id);
    ReleaseMoves(h1, id);
    MovesOn(h, h1, Release(h1, id));
  }

  lemma RejectedMoves(h: Hub, id: string, code: string, order: seq<string>)
    requires Sane(h) && id in h.gates && h.gates[id].work.Changing? && RoutesOf(h, id) <= Members(order)
    ensures var h' := Release(Reject(h, h.gates[id].conn, code, order), id); Sane(h') && Moves(h, h')
  {
    hide Sane, Moves, Reject, Release, RoutesAt, RoutesOf, Stopped;
    GateMeans(h, id);
    RoutesOfConnection(h, id, h.gates[id].conn);
    RejectMoves(h, h.gates[id].conn, code, order);
    StoppedAndReleased(h, Reject(h, h.gates[id].conn, code, order), id);
  }

  /** An unknown outcome stops routing before it is reported. */
  lemma UnknownAccessMoves(h: Hub, id: string, f: Frame, order: seq<string>)
    requires Sane(h) && id in h.gates && h.gates[id].work.Changing? && RoutesOf(h, id) <= Members(order) && f.exec == ""
    ensures var c := h.gates[id].conn;
      var h' := Release(CloseConn(Tell(StopRouting(h, c, order), c, f), c), id); Sane(h') && Moves(h, h')
  {
    hide Sane, Moves, StopRouting, Put, Release, RoutesAt, RoutesOf, Stored;
    GateMeans(h, id);
    var c := h.gates[id].conn;
    RoutesOfConnection(h, id, c);
    StopMoves(h, c, order);
    var h1 := StopRouting(h, c, order);
    PutMoves(h1, c, O.Send(f));
    var h2 := Tell(h1, c, f);
    PutMoves(h2, c, O.CloseIt);
    MovesOn(h, h1, h2);
    MovesOn(h, h2, CloseConn(h2, c));
    StoppedAndReleased(h, CloseConn(h2, c), id);
  }

  lemma RefusedAccessMoves(h: Hub, id: string, f: Frame)
    requires Sane(h) && id in h.gates && h.gates[id].work.Changing? && h.gates[id].work.change.Manages?
    requires h.gates[id].progress.Bad? && f.exec == ""
    requires !MayHaveCommitted(h.gates[id].work.change, h.gates[id].progress.code)
    ensures var h' := Release(Tell(h, h.gates[id].conn, f), id); Sane(h') && Moves(h, h')
  {
    hide Sane, Moves, Put, Release, Stored;
    GateMeans(h, id);
    var c := h.gates[id].conn;
    PutMoves(h, c, O.Send(f));
    var h1 := Tell(h, c, f);
    ReleaseMoves(h1, id);
    MovesOn(h, h1, Release(h1, id));
  }

  lemma FailAccessMoves(h: Hub, id: string, order: seq<string>)
    requires Sane(h) && id in h.gates && h.gates[id].work.Changing? && h.gates[id].work.change.Manages?
    requires h.gates[id].progress.Bad? && RoutesOf(h, id) <= Members(order)
    ensures var p := h.gates[id];
      var h' := Release(FailAccess(h, p, p.work.change, p.progress.code, order), id); Sane(h') && Moves(h, h')
  {
    hide Sane, Moves, StopRouting, Put, Release, RoutesOf;
    var p := h.gates[id];
    var f := Reply(AccessResult, p.progress.code, 0);
    if MayHaveCommitted(p.work.change, p.progress.code) {
      UnknownAccessMoves(h, id, f, order);
    } else {
      RefusedAccessMoves(h, id, f);
    }
  }

  lemma BadGreetingMoves(h: Hub, id: string)
    requires Sane(h) && id in h.gates && !h.gates[id].work.Changing? && h.gates[id].progress.Bad?
    ensures var h' := Release(Turned(h, h.gates[id].conn, h.gates[id].progress.code), id); Sane(h') && Moves(h, h')
  {
    GateIsSure(h, id);
    Stays(h);
    hide Sane, Moves, Turned, Release, Records, InDoubt;
    TurnedAndReleased(h, h, id, h.gates[id].conn, h.gates[id].progress.code);
  }

  lemma PublishMoves(h: Hub, id: string, order: seq<string>, members: seq<Conn>, rest: nat)
    requires Sane(h) && id in h.gates && h.gates[id].progress != Waiting
    requires RoutesOf(h, id) <= Members(order) && ClientsListed(h, members, id)
    ensures var h' := Release(Publish(h, id, order, members, rest), id); Sane(h') && Moves(h, h')
  {
    hide Sane, Moves, Turned, Release, RoutesOf, Stored, ClientsListed, PublishDevice, PublishClient, PublishSettings,
         PublishRevoke, PublishAccess, FailAccess, Reject;
    GateMeans(h, id);
    var p := h.gates[id];
    match p.work
    case Registering(_, _) =>
      if p.progress.Bad? { BadGreetingMoves(h, id); } else { PublishDeviceMoves(h, id, order); }
    case Joining(_, _, _) =>
      if p.progress.Bad? { BadGreetingMoves(h, id); } else { PublishClientMoves(h, id); }
    case Changing(_, _, change) =>
      if change.Manages? {
        if p.progress.Bad? { FailAccessMoves(h, id, order); }
        else { PublishAccessMoves(h, id, p.progress.record, order, members, rest); }
      } else if p.progress.Bad? {
        RejectedMoves(h, id, p.progress.code, order);
      } else if change.Revoke? {
        PublishRevokeMoves(h, id, order);
      } else {
        PublishSettingsMoves(h, id, p.progress.record, order);
      }
  }
}
