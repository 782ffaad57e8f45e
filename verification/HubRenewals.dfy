/** The end of a foreground route's authority is final. */
module HubRenewals {
  import opened Prelude
  import opened Devices
  import opened Frames
  import opened HubModel
  import opened HubRouting
  import opened HubRecords
  import opened HubWire
  import opened HubLease
  import opened HubSteps
  import opened HubCalls
  import opened HubIdentity
  import opened HubPublish
  import opened HubHistory
  import O = OutboxModel

  /** Once no connection may renew a route, nothing that happens later, not even inbound coming back, a new
      connection, the same request ID or a renewal whose authority check was already under way, grants
      it another lease. */
  lemma NoLeaseAfterTheEnd(before: seq<Event>, after: seq<Event>, r: string)
    requires r in Run(Fresh, before).issued
    requires forall from: Conn :: !Live(Run(Fresh, before), from, r)
    ensures var h, h' := Run(Fresh, before), Run(Run(Fresh, before), after);
      && (forall from: Conn :: !Live(h', from, r))
      && h.granted <= h'.granted
      && forall i | |h.granted| <= i < |h'.granted| :: h'.granted[i].route != r
  {
    FreshIsSane();
    RunSane(Fresh, before);
    RunSane(Run(Fresh, before), after);
    hide Run, Sane, Live;
  }

  /** A lease is granted only over the connection that the route's invoke went out on. */
  lemma LeaseGoesToTheDispatchedDevice(h: Hub, from: Conn, r: string)
    requires Sane(h) && Live(h, from, r)
    ensures r in h.issued && h.issued[r].via == from
  {
    RouteMeans(h, r);
    hide Routing, Records, Wired, Binding.Matches, Device.Bound;
  }

  // ----- What ends it ----------------------------------------------------------------------------------

  lemma CancelEndsRenewal(h: Hub, from: Conn, exec: string, d: Conn)
    requires Sane(h) && RequestKey(from, exec) in h.requests
    ensures !Live(Cancel(h, from, exec), d, h.requests[RequestKey(from, exec)])
  {
    var r := h.requests[RequestKey(from, exec)];
    RequestMeans(h, from, exec);
    var h1 := SetRoute(h, r, h.inflight[r].(cancelled := true));
    hide Sane, Put, Narrows, Quiet;
    SetRouteGood(h, r, h.inflight[r].(cancelled := true));
    CancelAtDeviceMoves(h1, r);
    SendsKeepMarks(h1, CancelAtDevice(h1, r), d, r);
  }

  lemma RequestMeans(h: Hub, from: Conn, exec: string)
    requires Sane(h) && RequestKey(from, exec) in h.requests
    ensures var r := h.requests[RequestKey(from, exec)]; r in h.inflight && h.inflight[r].client == from
  {
    hide CallersHeld, DevicesHeld, IssuesHeld, Counted, SlotRoles, ClientRoles, GateRoles, Joiners, IssueRoles, Known, Records, Wired;
  }

  lemma SendsKeepMarks(h: Hub, h': Hub, d: Conn, r: string)
    requires OnlySends(h, h') && r in h.inflight && h.inflight[r].cancelled
    ensures !Live(h', d, r)
  {
    hide Binding.Matches, Device.Bound;
  }

  /** The device's connection ends. */
  lemma DeviceDropEndsRenewal(h: Hub, from: Conn, order: seq<string>, id: string, d: Conn, r: string)
    requires Sane(h) && DeviceOf(h, from) == Some(id) && r in h.inflight && h.inflight[r].device == id
    requires RoutesAt(h, from) <= Members(order)
    ensures !Live(StopRouting(h, from, order), d, r)
  {
    var h1 := FailDevice(h, order, DEVICE_OFFLINE);
    FailDeviceMoves(h, order, DEVICE_OFFLINE);
    hide Sane, Moves, FailDevice, Binding.Matches, Device.Bound;
  }

  /** The caller's connection ends. */
  lemma ClientDropEndsRenewal(h: Hub, from: Conn, order: seq<string>, d: Conn, r: string)
    requires Sane(h) && r in h.inflight && h.inflight[r].client == from && RoutesFor(h, from) <= Members(order)
    ensures !Live(CancelClient(h, order), d, r)
  {
    CancelClientMoves(h, order);
    assert r in RoutesFor(h, from);
    hide Sane, Moves, CancelClient, Binding.Matches, Device.Bound;
  }

  /** A record that refuses invocations, or is known by another binding. */
  predicate Ends(route: Route, record: Device) {
    !record.inbound || !route.binding.access.Matches(record.Bound())
  }

  lemma RecordEndsRenewal(h: Hub, id: string, record: Device, d: Conn, r: string)
    requires id in h.devices && r in h.inflight && h.inflight[r].device == id && Ends(h.inflight[r], record)
    ensures !Live(Recorded(h, id, record), d, r)
  {
    RecordedFields(h, id, record);
    hide Recorded, Binding.Matches, Device.Bound;
  }

  /** Settings that switch inbound off, or replace the binding, end the renewals of the device's routes
      the moment they are published. */
  lemma SettingsEndRenewal(h: Hub, id: string, record: Device, order: seq<string>, d: Conn, r: string)
    requires Sane(h) && Publishes(h, id, record) && RoutesOf(h, id) <= Members(order)
    requires id in h.devices && r in h.inflight && h.inflight[r].device == id && Ends(h.inflight[r], record)
    ensures !Live(Release(PublishSettings(h, id, h.gates[id], record, order), id), d, r)
  {
    GateMeans(h, id);
    RouteIsIssued(h, r);
    hide Sane, Quiet, Confirm, RoutesOf, Stored, Release, SetRecord, RevokeForeground, Live, Ends;
    RecordEndsRenewal(h, id, record, d, r);
    RecordedMoves(h, id, record);
    RecordedRoutesOf(h, id, record);
    RecordedFields(h, id, record);
    ConfirmRecorded(Recorded(h, id, record), id, h.gates[id].conn, record, Reply(SettingsResult, "", 0), order, true);
  }

  /** So does a change of hands: the routes of the device are gone. */
  lemma AccessEndsRenewal(h: Hub, id: string, record: Device, order: seq<string>, members: seq<Conn>, rest: nat,
                          d: Conn, r: string)
    requires Sane(h) && Publishes(h, id, record) && h.gates[id].work.change.Manages?
    requires RoutesOf(h, id) <= Members(order) && ClientsListed(h, members, id) && id in h.devices
    requires h.gates[id].work.expected.ownershipId != record.ownershipId
    requires r in h.inflight && h.inflight[r].device == id
    ensures !Live(Release(PublishAccess(h, id, h.gates[id], record, order, members, rest), id), d, r)
  {
    GateMeans(h, id);
    RouteIsIssued(h, r);
    InvalidatedIsGone(h, id, order, members, r);
    hide Sane, Quiet, Confirm, RoutesOf, Stored, Release, SetRecord, Live, Invalidate, ClientsListed, Discreet;
    InvalidateMoves(h, id, order, members);
    var h1 := Invalidate(h, order, members);
    var f := Reply(AccessResult, "", rest);
    SetAndConfirm(h1, id, record, f, []);
    NotInFlight(h1, d, r);
  }

  lemma NotInFlight(h: Hub, d: Conn, r: string)
    requires r !in h.inflight
    ensures !Live(h, d, r)
  {
  }

  lemma InvalidatedIsGone(h: Hub, id: string, order: seq<string>, members: seq<Conn>, r: string)
    requires Sane(h) && RoutesOf(h, id) <= Members(order) && ClientsListed(h, members, id)
    requires r in h.inflight && h.inflight[r].device == id
    ensures r !in Invalidate(h, order, members).inflight
  {
    assert r in RoutesOf(h, id);
    hide Sane, Moves, InvalidateRoutes, RemoveClient;
    InvalidateRoutesMoves(h, order);
    RemovalKeepsRoutes(InvalidateRoutes(h, order), members);
  }

  lemma {:induction false} RemovalKeepsRoutes(h: Hub, members: seq<Conn>)
    ensures RemoveClients(h, members).inflight == h.inflight
    decreases |members|
  {
    if members != [] {
      SendFields(h.(clients := h.clients - {members[0]}), members[0], O.CloseIt, "");
      hide Put;
      RemovalKeepsRoutes(RemoveClient(h, members[0]), members[1..]);
    }
  }

  /** And a new connection of the same device. */
  lemma ReplacementEndsRenewal(h: Hub, id: string, order: seq<string>, d: Conn, r: string)
    requires Sane(h) && id in h.gates && h.gates[id].work.Registering? && h.gates[id].progress.Good?
    requires RoutesOf(h, id) <= Members(order) && r in h.inflight && h.inflight[r].device == id
    requires !Gone(h, h.gates[id].conn)
    requires Put(h, h.gates[id].conn, O.Send(Reply(HelloOK, "", 0)), "").1 == O.Accepted
    ensures !Live(Release(PublishDevice(h, id, h.gates[id].conn, h.gates[id].progress.record, order), id), d, r)
  {
    var c := h.gates[id].conn;
    var e := O.Send(Reply(HelloOK, "", 0));
    var h1 := Put(h, c, e, "").0;
    RouteIsIssued(h, r);
    PutMoves(h, c, e);
    hide Sane, Quiet, Discreet, Put, Live, FailDevice, RoutesOf, Gone;
    SameRoutesOf(h, h1, id);
    ReplacedIsGone(h1, id, c, order, r);
    TakeSlotMoves(h1, id, order);
    var h2 := Replaced(h1, id, c, order);
    NotInFlight(Attach(h2, id, c, h.gates[id].progress.record).(gates := h2.gates - {id}), d, r);
  }

  lemma ReplacedIsGone(h: Hub, id: string, c: Conn, order: seq<string>, r: string)
    requires Sane(h) && id in h.gates && h.gates[id].work.Registering? && h.gates[id].conn == c
    requires RoutesOf(h, id) <= Members(order) && r in h.inflight && h.inflight[r].device == id
    ensures r !in Replaced(h, id, c, order).inflight
  {
    assert r in RoutesOf(h, id);
    SaneMeansRouting(h);
    if id in h.devices && h.devices[id].conn.Some? && h.devices[id].conn != Some(c) {
      hide Sane, Moves, FailDevice, Put;
      FailDeviceMoves(h, order, DEVICE_OFFLINE);
      SendFields(FailDevice(h, order, DEVICE_OFFLINE), h.devices[id].conn.value, O.CloseIt, "");
    } else {
      hide Routing;
      NoRoutesWithout(h, id, c);
    }
  }

  lemma SaneMeansRouting(h: Hub)
    requires Sane(h)
    ensures Routing(h)
  {
    hide Routing, Records, Wired;
  }

  lemma RouteIsIssued(h: Hub, r: string)
    requires Sane(h) && r in h.inflight
    ensures r in h.issued
  {
    RouteMeans(h, r);
  }
}
