/** Every handler keeps the router's invariants, narrows what may be renewed, and, unless it forwards a
    device's frame, says nothing for a route but a closing error. */
module HubSteps {
  import opened Prelude
  import opened Devices
  import opened Frames
  import opened HubModel
  import opened HubRouting
  import opened HubRecords
  import opened HubWire
  import opened HubLease
  import O = OutboxModel

  ghost predicate Sane(h: Hub) {
    Routing(h) && Records(h) && Wired(h)
  }

  /** A step of the router, possibly with an answer of its own to a caller. */
  ghost predicate Talks(h: Hub, h': Hub) {
    Quiet(h, h') && Narrows(h, h')
  }

  ghost predicate Moves(h: Hub, h': Hub) {
    Talks(h, h') && Discreet(h, h')
  }

  lemma TalksOn(a: Hub, b: Hub, c: Hub)
    requires Talks(a, b) && Talks(b, c)
    ensures Talks(a, c)
  {
    hide Quiet, Narrows;
    QuietOn(a, b, c);
    NarrowsOn(a, b, c);
  }

  lemma MovesOn(a: Hub, b: Hub, c: Hub)
    requires Moves(a, b) && Moves(b, c)
    ensures Moves(a, c)
  {
    hide Talks, Discreet;
    TalksOn(a, b, c);
    DiscreetOn(a, b, c);
  }

  lemma Stays(h: Hub)
    ensures Moves(h, h)
  {
    hide Live;
    SilenceIsQuiet(h, h);
    SilenceIsDiscreet(h, h);
  }

  // ----- Signals that no route causes ------------------------------------------------------------------

  /** Only outboxes and the record of what was sent differ. */
  predicate OnlySends(h: Hub, h': Hub) {
    h' == h.(net := h'.net, wire := h'.wire) && h'.net.Keys == h.net.Keys
  }

  lemma NoEmptyRoute(h: Hub)
    requires Routing(h)
    ensures "" !in h.issued && "" !in h.inflight && forall r <- h.inflight :: r in h.issued
  {
    hide Inverse, CallersHeld, DevicesHeld, Counted, SlotRoles, ClientRoles, GateRoles, Joiners, IssueRoles, Known;
  }

  lemma SendFields(h: Hub, c: Conn, e: O.Event, r: string)
    ensures OnlySends(h, Put(h, c, e, r).0)
  {
    PutFields(h, c, e, r);
    hide Put, O.Step;
  }

  lemma SendKeepsRest(h: Hub, h': Hub)
    requires Routing(h) && Records(h) && OnlySends(h, h')
    ensures Routing(h') && Records(h')
  {
    assert GateRoles(h'.gates, h.devices, h.roles) && Joiners(h'.gates, h.clients);
    FrameKeepsRouting(h, h');
    FrameKeepsRecords(h, h');
  }

  lemma PutTalks(h: Hub, c: Conn, e: O.Event)
    requires Sane(h)
    ensures Sane(Put(h, c, e, "").0) && Talks(h, Put(h, c, e, "").0) && OnlySends(h, Put(h, c, e, "").0)
  {
    hide Routing, Records, Wired, Put, Quiet, Narrows;
    NoEmptyRoute(h);
    SendFields(h, c, e, "");
    SendKeepsRest(h, Put(h, c, e, "").0);
    PutKeepsWired(h, c, e, "");
    PutIsQuiet(h, c, e);
    PutNarrows(h, c, e, "");
  }

  lemma PutMoves(h: Hub, c: Conn, e: O.Event)
    requires Sane(h) && Unaddressed(h, c, e)
    ensures Sane(Put(h, c, e, "").0) && Moves(h, Put(h, c, e, "").0) && OnlySends(h, Put(h, c, e, "").0)
  {
    hide Sane, Put, Talks, Discreet;
    PutTalks(h, c, e);
    PutIsDiscreet(h, c, e, "");
  }

  lemma TurnedMoves(h: Hub, c: Conn, code: string)
    requires Sane(h)
    ensures Sane(Turned(h, c, code)) && Moves(h, Turned(h, c, code)) && OnlySends(h, Turned(h, c, code))
  {
    hide Sane, Moves, Put;
    var f := Reply(Error, code, 0);
    PutMoves(h, c, O.Send(f));
    PutMoves(Tell(h, c, f), c, O.CloseIt);
    MovesOn(h, Tell(h, c, f), Turned(h, c, code));
  }

  // ----- Routes that end -------------------------------------------------------------------------------

  /** `gone` have ended; apart from that only outboxes differ. */
  predicate RoutesEnd(h: Hub, h': Hub, gone: set<string>) {
    && h' == h.(net := h'.net, wire := h'.wire, requests := h'.requests, active := h'.active, inflight := h.inflight - gone)
    && h'.net.Keys == h.net.Keys
  }

  lemma RoutesEndOn(a: Hub, b: Hub, c: Hub, gone: set<string>, more: set<string>)
    requires RoutesEnd(a, b, gone) && RoutesEnd(b, c, more)
    ensures RoutesEnd(a, c, gone + more)
  {
    assert a.inflight - gone - more == a.inflight - (gone + more);
  }

  lemma NoneEnd(h: Hub)
    ensures RoutesEnd(h, h, {})
  {
    assert h.inflight - {} == h.inflight;
  }

  lemma SendsEndNone(a: Hub, b: Hub, c: Hub, gone: set<string>)
    requires OnlySends(a, b) && RoutesEnd(b, c, gone)
    ensures RoutesEnd(a, c, gone)
  {
  }

  lemma FinishGood(h: Hub, r: string)
    requires Sane(h)
    ensures Sane(Finish(h, r)) && Moves(h, Finish(h, r)) && RoutesEnd(h, Finish(h, r), {r})
  {
    hide Finish, Routing, Records, Wired, Narrows, Quiet, Discreet;
    FinishKeepsRouting(h, r);
    FinishFields(h, r);
    FinishKeepsRecords(h, Finish(h, r), h.inflight - {r});
    FewerRoutesKeepWired(h, Finish(h, r));
    FinishNarrows(h, r);
    FinishIsQuiet(h, r);
  }

  lemma FinishIsQuiet(h: Hub, r: string)
    ensures Quiet(h, Finish(h, r)) && Discreet(h, Finish(h, r))
  {
    FinishFields(h, r);
    hide Finish, Quiet, Discreet;
    SilenceIsQuiet(h, Finish(h, r));
    SilenceIsDiscreet(h, Finish(h, r));
  }

  lemma MayAnswer(h: Hub, r: string, f: Frame)
    requires Routing(h) && r in h.inflight && f.exec == h.inflight[r].request
    ensures r != "" && MayPut(h, h.inflight[r].client, O.Send(f), r)
  {
    hide Inverse, CallersHeld, DevicesHeld, Counted, SlotRoles, ClientRoles, GateRoles, Joiners, IssueRoles, Known;
  }

  /** A last frame for the caller, and the end of its route. */
  lemma EndGood(h: Hub, r: string, f: Frame)
    requires Sane(h) && r in h.inflight && f.exec == h.inflight[r].request
    ensures var h' := Finish(Answer(h, r, f).0, r);
      Sane(h') && Narrows(h, h') && Discreet(h, h') && RoutesEnd(h, h', {r})
  {
    hide Finish, Put, Routing, Records, Wired, Narrows, Discreet, MayPut, O.Step;
    var c := h.inflight[r].client;
    NoEmptyRoute(h);
    MayAnswer(h, r, f);
    SendFields(h, c, O.Send(f), r);
    var h1 := Answer(h, r, f).0;
    SendKeepsRest(h, h1);
    FinishKeepsRouting(h1, r);
    FinishFields(h1, r);
    FinishKeepsRecords(h1, Finish(h1, r), h1.inflight - {r});
    EndKeepsWired(h, r, f);
    PutNarrows(h, c, O.Send(f), r);
    FinishNarrows(h1, r);
    NarrowsOn(h, h1, Finish(h1, r));
    PutIsDiscreet(h, c, O.Send(f), r);
    SilenceIsDiscreet(h1, Finish(h1, r));
    DiscreetOn(h, h1, Finish(h1, r));
  }

  lemma FailOneMoves(h: Hub, r: string, code: string)
    requires Sane(h)
    ensures Sane(FailOne(h, r, code)) && Moves(h, FailOne(h, r, code)) && RoutesEnd(h, FailOne(h, r, code), {r})
  {
    hide Routing, Records, Wired, Quiet, Narrows, Discreet, Put, Finish, RoutesEnd;
    if r in h.inflight {
      NoEmptyRoute(h);
      EndGood(h, r, Err(h.inflight[r].request, code));
      FailIsQuiet(h, r, code);
    } else {
      Stays(h);
      NotThere(h, r);
    }
  }

  lemma NotThere(h: Hub, r: string)
    requires r !in h.inflight
    ensures RoutesEnd(h, h, {r})
  {
    assert h.inflight - {r} == h.inflight;
  }

  lemma SlotIsDevice(h: Hub, id: string)
    requires Sane(h)
    ensures id in h.devices && h.devices[id].conn.Some? ==> ToDevice(h.devices[id].conn.value, h.roles)
  {
    hide Inverse, CallersHeld, DevicesHeld, IssuesHeld, Counted, ClientRoles, GateRoles, Joiners, IssueRoles, Known, Records, Wired;
  }

  lemma CancelAtDeviceMoves(h: Hub, r: string)
    requires Sane(h) && r in h.inflight
    ensures var h' := CancelAtDevice(h, r); Sane(h') && Moves(h, h') && OnlySends(h, h')
  {
    SlotIsDevice(h, h.inflight[r].device);
    hide Sane, Moves, Put;
    var id := h.inflight[r].device;
    Stays(h);
    if id in h.devices && h.devices[id].conn.Some? {
      PutMoves(h, h.devices[id].conn.value, O.Send(CancelFrame(r)));
    }
  }

  lemma CancelOneMoves(h: Hub, r: string)
    requires Sane(h)
    ensures Sane(CancelOne(h, r)) && Moves(h, CancelOne(h, r)) && RoutesEnd(h, CancelOne(h, r), {r})
  {
    hide Sane, Moves, CancelAtDevice, Finish;
    if r in h.inflight {
      CancelAtDeviceMoves(h, r);
      var h1 := CancelAtDevice(h, r);
      FinishGood(h1, r);
      MovesOn(h, h1, Finish(h1, r));
      SendsEndNone(h, h1, Finish(h1, r), {r});
    } else {
      Stays(h);
      NotThere(h, r);
    }
  }

  lemma InvalidateOneMoves(h: Hub, r: string)
    requires Sane(h)
    ensures Sane(InvalidateOne(h, r)) && Moves(h, InvalidateOne(h, r)) && RoutesEnd(h, InvalidateOne(h, r), {r})
  {
    hide Sane, Moves, CancelAtDevice, FailOne;
    if r in h.inflight {
      CancelAtDeviceMoves(h, r);
      var h1 := CancelAtDevice(h, r);
      FailOneMoves(h1, r, RESULT_UNKNOWN);
      MovesOn(h, h1, FailOne(h1, r, RESULT_UNKNOWN));
      SendsEndNone(h, h1, FailOne(h1, r, RESULT_UNKNOWN), {r});
    } else {
      Stays(h);
      NotThere(h, r);
    }
  }

  function Members<T(==)>(order: seq<T>): set<T> {
    set x <- order
  }

  lemma MembersSplit<T>(order: seq<T>)
    requires order != []
    ensures Members(order) == {order[0]} + Members(order[1..])
  {
    assert order == [order[0]] + order[1..];
  }

  lemma {:induction false} FailDeviceMoves(h: Hub, order: seq<string>, code: string)
    requires Sane(h)
    ensures var h' := FailDevice(h, order, code); Sane(h') && Moves(h, h') && RoutesEnd(h, h', Members(order))
    decreases |order|
  {
    hide Sane, Moves, FailOne, RoutesEnd;
    if order == [] {
      Stays(h);
      NoneEnd(h);
      assert Members(order) == {};
    } else {
      var h1 := FailOne(h, order[0], code);
      FailOneMoves(h, order[0], code);
      FailDeviceMoves(h1, order[1..], code);
      MembersSplit(order);
      MovesOn(h, h1, FailDevice(h1, order[1..], code));
      RoutesEndOn(h, h1, FailDevice(h1, order[1..], code), {order[0]}, Members(order[1..]));
    }
  }

  lemma {:induction false} CancelClientMoves(h: Hub, order: seq<string>)
    requires Sane(h)
    ensures var h' := CancelClient(h, order); Sane(h') && Moves(h, h') && RoutesEnd(h, h', Members(order))
    decreases |order|
  {
    hide Sane, Moves, CancelOne, RoutesEnd;
    if order == [] {
      Stays(h);
      NoneEnd(h);
      assert Members(order) == {};
    } else {
      var h1 := CancelOne(h, order[0]);
      CancelOneMoves(h, order[0]);
      CancelClientMoves(h1, order[1..]);
      MembersSplit(order);
      MovesOn(h, h1, CancelClient(h1, order[1..]));
      RoutesEndOn(h, h1, CancelClient(h1, order[1..]), {order[0]}, Members(order[1..]));
    }
  }

  lemma {:induction false} InvalidateRoutesMoves(h: Hub, order: seq<string>)
    requires Sane(h)
    ensures var h' := InvalidateRoutes(h, order); Sane(h') && Moves(h, h') && RoutesEnd(h, h', Members(order))
    decreases |order|
  {
    hide Sane, Moves, InvalidateOne, RoutesEnd;
    if order == [] {
      Stays(h);
      NoneEnd(h);
      assert Members(order) == {};
    } else {
      var h1 := InvalidateOne(h, order[0]);
      InvalidateOneMoves(h, order[0]);
      InvalidateRoutesMoves(h1, order[1..]);
      MembersSplit(order);
      MovesOn(h, h1, InvalidateRoutes(h1, order[1..]));
      RoutesEndOn(h, h1, InvalidateRoutes(h1, order[1..]), {order[0]}, Members(order[1..]));
    }
  }

  lemma NoRoutesLeft(h: Hub, h': Hub, order: seq<string>, id: string)
    requires RoutesEnd(h, h', Members(order)) && RoutesOf(h, id) <= Members(order)
    ensures RoutesOf(h', id) == {}
  {
  }

  lemma NoCallsLeft(h: Hub, h': Hub, order: seq<string>, c: Conn)
    requires RoutesEnd(h, h', Members(order)) && RoutesFor(h, c) <= Members(order)
    ensures RoutesFor(h', c) == {}
  {
  }

  // ----- Clients that leave ----------------------------------------------------------------------------

  lemma LeaveMoves(h: Hub, c: Conn)
    requires Sane(h) && RoutesFor(h, c) == {}
    ensures var h' := h.(clients := h.clients - {c}); Sane(h') && Moves(h, h')
  {
    hide Routing, Records, Wired, Quiet, Narrows, Discreet, RoutesFor;
    var h' := h.(clients := h.clients - {c});
    LeaveKeepsRouting(h, c);
    FrameKeepsRecords(h, h');
    FewerRoutesKeepWired(h, h');
    SilenceIsQuiet(h, h');
    SilenceIsDiscreet(h, h');
    RoutesNarrow(h, h');
  }

  /** Clients go and outboxes differ. */
  predicate OnlyClientsGo(h: Hub, h': Hub) {
    h' == h.(net := h'.net, wire := h'.wire, clients := h'.clients) && h'.net.Keys == h.net.Keys
  }

  lemma RemoveClientMoves(h: Hub, c: Conn)
    requires Sane(h) && RoutesFor(h, c) == {}
    ensures var h' := RemoveClient(h, c); Sane(h') && Moves(h, h') && OnlyClientsGo(h, h')
  {
    hide Sane, Moves, Put;
    LeaveMoves(h, c);
    var h1 := h.(clients := h.clients - {c});
    PutMoves(h1, c, O.CloseIt);
    MovesOn(h, h1, CloseConn(h1, c));
  }

  lemma {:induction false} RemoveClientsMoves(h: Hub, order: seq<Conn>)
    requires Sane(h) && forall c <- order :: RoutesFor(h, c) == {}
    ensures var h' := RemoveClients(h, order); Sane(h') && Moves(h, h') && OnlyClientsGo(h, h')
    decreases |order|
  {
    hide Sane, Moves, RemoveClient;
    if order == [] {
      Stays(h);
    } else {
      var h1 := RemoveClient(h, order[0]);
      RemoveClientMoves(h, order[0]);
      forall c <- order[1..] ensures RoutesFor(h1, c) == {} {
        assert RoutesFor(h1, c) == RoutesFor(h, c);
      }
      RemoveClientsMoves(h1, order[1..]);
      MovesOn(h, h1, RemoveClients(h1, order[1..]));
    }
  }

  // ----- Devices that leave ----------------------------------------------------------------------------

  lemma OfflineMoves(h: Hub, id: string)
    requires Sane(h) && id in h.devices && RoutesOf(h, id) == {}
    ensures Sane(Offline(h, id)) && Moves(h, Offline(h, id))
  {
    hide Routing, Records, Wired, Quiet, Narrows, Discreet, RoutesOf;
    var h' := Offline(h, id);
    OfflineKeepsRouting(h, id);
    OfflineKeepsRecords(h, id);
    FewerRoutesKeepWired(h, h');
    SilenceIsQuiet(h, h');
    SilenceIsDiscreet(h, h');
    assert h'.devices - {id} == h.devices - {id};
    DetachNarrows(h, h', id);
  }

  /** Routing for the connection has stopped: its device, if it was one, is offline without routes. */
  predicate Stopped(h: Hub, h': Hub, from: Conn) {
    && h' == h.(net := h'.net, wire := h'.wire, requests := h'.requests, active := h'.active,
                inflight := h'.inflight, devices := h'.devices)
    && h'.inflight.Keys <= h.inflight.Keys
    && match DeviceOf(h, from)
       case None => h'.devices == h.devices
       case Some(id) => h'.devices == h.devices[id := h.devices[id].(conn := None, online := false)]
  }

  lemma StopMoves(h: Hub, from: Conn, order: seq<string>)
    requires Sane(h) && RoutesAt(h, from) <= Members(order)
    ensures var h' := StopRouting(h, from, order); Sane(h') && Moves(h, h') && Stopped(h, h', from)
  {
    hide Sane, Moves, FailDevice, Offline;
    match DeviceOf(h, from)
    case None => Stays(h);
    case Some(id) =>
      var h1 := FailDevice(h, order, DEVICE_OFFLINE);
      FailDeviceMoves(h, order, DEVICE_OFFLINE);
      NoRoutesLeft(h, h1, order, id);
      OfflineMoves(h1, id);
      MovesOn(h, h1, Offline(h1, id));
      OfflineFields(h1, id);
  }

  lemma OfflineFields(h: Hub, id: string)
    requires id in h.devices
    ensures Offline(h, id) == h.(devices := h.devices[id := h.devices[id].(conn := None, online := false)])
  {
  }

  lemma RejectMoves(h: Hub, from: Conn, code: string, order: seq<string>)
    requires Sane(h) && RoutesAt(h, from) <= Members(order)
    ensures var h' := Reject(h, from, code, order); Sane(h') && Moves(h, h') && Stopped(h, h', from)
  {
    hide Sane, Moves, StopRouting, Put, DeviceOf, RoutesAt;
    StopMoves(h, from, order);
    var h1 := StopRouting(h, from, order);
    var f := Reply(Error, code, 0);
    PutMoves(h1, from, O.Send(f));
    var h2 := Tell(h1, from, f);
    PutMoves(h2, from, O.CloseIt);
    MovesOn(h, h1, h2);
    MovesOn(h, h2, CloseConn(h2, from));
  }
}
