/** What the router's maps agree on: requests and routes, callers and devices, admission counts. */
module HubRouting {
  import opened Prelude
  import opened Devices
  import opened HubModel
  import A = Access
  import M = AdmissionModel
  import O = OutboxModel

  // ----- The invariant -------------------------------------------------------------------------------

  /** `requests` and `inflight` are inverses of each other. */
  predicate Inverse(inflight: map<string, Route>, requests: map<RequestKey, string>) {
    && (forall r <- inflight ::
          var key := RequestKey(inflight[r].client, inflight[r].request); key in requests && requests[key] == r)
    && (forall k <- requests ::
          requests[k] in inflight && RequestKey(inflight[requests[k]].client, inflight[requests[k]].request) == k)
  }

  /** A route's caller is registered for the route's device with the route's binding. */
  predicate CallersHeld(inflight: map<string, Route>, clients: map<Conn, Client>) {
    forall r <- inflight ::
      && inflight[r].client in clients && clients[inflight[r].client] == inflight[r].binding
      && inflight[r].binding.target == inflight[r].device
  }

  /** A route's device is online and ready on the connection that received the invoke. */
  predicate DevicesHeld(inflight: map<string, Route>, devices: map<string, Slot>, issued: map<string, Issue>) {
    forall r <- inflight ::
      && r in issued && inflight[r].device in devices
      && var slot := devices[inflight[r].device];
         slot.conn == Some(issued[r].via) && slot.online && slot.ready
  }

  predicate IssuesHeld(inflight: map<string, Route>, issued: map<string, Issue>) {
    && "" !in issued
    && forall r <- inflight ::
         r in issued && issued[r].client == inflight[r].client && issued[r].request == inflight[r].request
  }

  function Using(inflight: map<string, Route>, uid: Id): set<string> {
    set r <- inflight | inflight[r].binding.access.deviceUid == uid
  }

  /** Each device's admission count is its number of routes, and within the limit. */
  ghost predicate Counted(inflight: map<string, Route>, active: M.Active) {
    && M.Positive(active)
    && forall uid: Id :: M.Count(active, uid) == |Using(inflight, uid)| && M.Count(active, uid) <= LIMIT
  }

  predicate SlotRoles(devices: map<string, Slot>, roles: map<Conn, Role>) {
    forall id <- devices :: devices[id].conn.Some? ==>
      devices[id].conn.value in roles && roles[devices[id].conn.value] == DeviceRole(id)
  }

  predicate ClientRoles(clients: map<Conn, Client>, roles: map<Conn, Role>) {
    forall c <- clients :: c in roles && roles[c] == ClientRole(clients[c].target)
  }

  predicate GateRoles(gates: map<string, Pending>, devices: map<string, Slot>, roles: map<Conn, Role>) {
    forall id <- gates ::
      && gates[id].conn in roles
      && roles[gates[id].conn] == (if gates[id].work.Joining? then ClientRole(id) else DeviceRole(id))
      && (gates[id].work.Registering? && id in devices ==> devices[id].conn != Some(gates[id].conn))
  }

  /** A caller that is still being admitted is not registered yet. */
  predicate Joiners(gates: map<string, Pending>, clients: map<Conn, Client>) {
    forall id <- gates :: gates[id].work.Joining? ==> gates[id].conn !in clients
  }

  /** Routes are made for callers. */
  predicate IssueRoles(issued: map<string, Issue>, roles: map<Conn, Role>) {
    forall r <- issued :: issued[r].client in roles && roles[issued[r].client].ClientRole?
  }

  predicate Known(h: Hub) {
    && h.roles.Keys <= h.net.Keys
    && (forall c <- h.net :: c < h.serial)
    && h.inboxes.Keys == h.net.Keys
    && (forall id <- h.devices :: h.devices[id].serial < h.serial)
  }

  ghost predicate Routing(h: Hub) {
    && Inverse(h.inflight, h.requests)
    && CallersHeld(h.inflight, h.clients)
    && DevicesHeld(h.inflight, h.devices, h.issued)
    && IssuesHeld(h.inflight, h.issued)
    && Counted(h.inflight, h.active)
    && SlotRoles(h.devices, h.roles)
    && ClientRoles(h.clients, h.roles)
    && GateRoles(h.gates, h.devices, h.roles)
    && Joiners(h.gates, h.clients)
    && IssueRoles(h.issued, h.roles)
    && Known(h)
  }

  // ----- One route goes ------------------------------------------------------------------------------

  lemma InverseWithout(inflight: map<string, Route>, requests: map<RequestKey, string>, r: string)
    requires Inverse(inflight, requests) && r in inflight
    ensures Inverse(inflight - {r}, requests - {RequestKey(inflight[r].client, inflight[r].request)})
  {
  }

  lemma CountedWithout(inflight: map<string, Route>, active: M.Active, r: string)
    requires Counted(inflight, active) && r in inflight
    ensures Counted(inflight - {r}, M.GiveBack(active, inflight[r].binding.access.deviceUid))
  {
    var uid := inflight[r].binding.access.deviceUid;
    forall other: Id
      ensures M.Count(M.GiveBack(active, uid), other) == |Using(inflight - {r}, other)|
      ensures M.Count(M.GiveBack(active, uid), other) <= LIMIT
    {
      M.GiveBackCounts(active, uid, other);
      OneLess(inflight, r, other);
      OneLess(inflight, r, uid);
    }
    M.GiveBackCounts(active, uid, uid);
  }

  lemma OneLess(inflight: map<string, Route>, r: string, uid: Id)
    requires r in inflight
    ensures |Using(inflight - {r}, uid)|
      == |Using(inflight, uid)| - if inflight[r].binding.access.deviceUid == uid then 1 else 0
  {
    if inflight[r].binding.access.deviceUid == uid {
      assert Using(inflight - {r}, uid) == Using(inflight, uid) - {r};
    } else {
      assert Using(inflight - {r}, uid) == Using(inflight, uid);
    }
  }

  lemma FinishKeepsRouting(h: Hub, r: string)
    requires Routing(h)
    ensures Routing(Finish(h, r))
  {
    if r in h.inflight {
      InverseWithout(h.inflight, h.requests, r);
      CountedWithout(h.inflight, h.active, r);
      HeldWithout(h, r);
      hide Inverse, Counted, CallersHeld, DevicesHeld, IssuesHeld, SlotRoles, ClientRoles, GateRoles, Joiners, IssueRoles;
    }
  }

  lemma HeldWithout(h: Hub, r: string)
    requires r in h.inflight
    ensures CallersHeld(h.inflight, h.clients) ==> CallersHeld(h.inflight - {r}, h.clients)
    ensures DevicesHeld(h.inflight, h.devices, h.issued) ==> DevicesHeld(h.inflight - {r}, h.devices, h.issued)
    ensures IssuesHeld(h.inflight, h.issued) ==> IssuesHeld(h.inflight - {r}, h.issued)
  {
  }

  // ----- One route comes -----------------------------------------------------------------------------

  lemma InverseWith(inflight: map<string, Route>, requests: map<RequestKey, string>, r: string, route: Route)
    requires Inverse(inflight, requests) && r !in inflight && RequestKey(route.client, route.request) !in requests
    ensures Inverse(inflight[r := route], requests[RequestKey(route.client, route.request) := r])
  {
  }

  lemma CountedWith(inflight: map<string, Route>, active: M.Active, r: string, route: Route)
    requires Counted(inflight, active) && r !in inflight
    requires M.Acquire(active, LIMIT, route.binding.access.deviceUid).1 == M.Granted
    ensures Counted(inflight[r := route], M.Acquire(active, LIMIT, route.binding.access.deviceUid).0)
  {
    var uid := route.binding.access.deviceUid;
    var active' := M.Acquire(active, LIMIT, uid).0;
    forall other: Id
      ensures M.Count(active', other) == |Using(inflight[r := route], other)| && M.Count(active', other) <= LIMIT
    {
      OneMore(inflight, r, route, other);
      assert M.Count(active, other) == |Using(inflight, other)|;
    }
  }

  lemma OneMore(inflight: map<string, Route>, r: string, route: Route, uid: Id)
    requires r !in inflight
    ensures |Using(inflight[r := route], uid)|
      == |Using(inflight, uid)| + if route.binding.access.deviceUid == uid then 1 else 0
  {
    if route.binding.access.deviceUid == uid {
      assert Using(inflight[r := route], uid) == Using(inflight, uid) + {r};
    } else {
      assert Using(inflight[r := route], uid) == Using(inflight, uid);
    }
  }

  /** The checks an invoke passes are what the new route needs. */
  predicate Admits(h: Hub, from: Conn, target: string, exec: string, r: string) {
    && FreshRoute(h, r) && Refusal(h, from, target, exec) == ""
  }

  lemma AdmitsMeans(h: Hub, from: Conn, target: string, exec: string, r: string)
    requires Admits(h, from, target, exec, r)
    ensures from in h.clients && h.clients[from].target == target && exec != "" && RequestKey(from, exec) !in h.requests
    ensures target in h.access && h.clients[from].access.Matches(h.access[target])
    ensures target in h.devices && h.devices[target].conn.Some? && h.devices[target].online && h.devices[target].ready
    ensures h.devices[target].record.inbound && h.devices[target].record.uid == h.clients[from].access.deviceUid
    ensures M.Acquire(h.active, LIMIT, h.clients[from].access.deviceUid).1 == M.Granted
    ensures r != "" && r !in h.issued && FreshRoute(h, r)
  {
  }

  lemma AddKeepsRouting(h: Hub, from: Conn, target: string, exec: string, op: string, r: string)
    requires Routing(h) && Admits(h, from, target, exec, r)
    ensures from in h.clients && target in h.devices && h.devices[target].conn.Some?
    ensures Routing(AddRoute(h, from, target, exec, op, r))
  {
    AdmitsMeans(h, from, target, exec, r);
    hide Admits, FreshRoute, Refusal;
    assert r !in h.inflight;
    var route := Route(exec, target, from, 0, false, h.clients[from], op, false);
    InverseWith(h.inflight, h.requests, r, route);
    CountedWith(h.inflight, h.active, r, route);
    HeldWith(h, r, route);
    hide Inverse, Counted, CallersHeld, DevicesHeld, IssuesHeld, SlotRoles, ClientRoles, GateRoles, Joiners, IssueRoles;
  }

  lemma HeldWith(h: Hub, r: string, route: Route)
    requires route.client in h.clients && h.clients[route.client] == route.binding && route.binding.target == route.device
    requires route.device in h.devices && h.devices[route.device].conn.Some?
    requires h.devices[route.device].online && h.devices[route.device].ready
    requires r != "" && r !in h.issued
    ensures var issued := h.issued[r := Issue(route.client, route.request, h.devices[route.device].conn.value)];
      && (CallersHeld(h.inflight, h.clients) ==> CallersHeld(h.inflight[r := route], h.clients))
      && (DevicesHeld(h.inflight, h.devices, h.issued) ==> DevicesHeld(h.inflight[r := route], h.devices, issued))
      && (IssuesHeld(h.inflight, h.issued) ==> IssuesHeld(h.inflight[r := route], issued))
  {
  }

  // ----- Fields that routing does not look at ----------------------------------------------------------

  /** Only the fields of a route that may change have changed. */
  predicate SameRoute(a: Route, b: Route) {
    && a.request == b.request && a.device == b.device && a.client == b.client
    && a.binding == b.binding && a.operation == b.operation && (a.cancelled ==> b.cancelled)
  }

  predicate SameRoutes(inflight: map<string, Route>, later: map<string, Route>) {
    later.Keys == inflight.Keys && forall r <- inflight :: SameRoute(inflight[r], later[r])
  }

  lemma SameRoutesKeep(h: Hub, later: map<string, Route>)
    requires SameRoutes(h.inflight, later)
    ensures Inverse(h.inflight, h.requests) ==> Inverse(later, h.requests)
    ensures CallersHeld(h.inflight, h.clients) ==> CallersHeld(later, h.clients)
    ensures DevicesHeld(h.inflight, h.devices, h.issued) ==> DevicesHeld(later, h.devices, h.issued)
    ensures IssuesHeld(h.inflight, h.issued) ==> IssuesHeld(later, h.issued)
  {
  }

  lemma SameRoutesCount(inflight: map<string, Route>, later: map<string, Route>, active: M.Active)
    requires SameRoutes(inflight, later) && Counted(inflight, active)
    ensures Counted(later, active)
  {
    forall uid: Id ensures M.Count(active, uid) == |Using(later, uid)| && M.Count(active, uid) <= LIMIT {
      assert Using(later, uid) == Using(inflight, uid);
    }
  }

  lemma RoutesKeepRouting(h: Hub, later: map<string, Route>)
    requires Routing(h) && SameRoutes(h.inflight, later)
    ensures Routing(h.(inflight := later))
  {
    SameRoutesKeep(h, later);
    SameRoutesCount(h.inflight, later, h.active);
    hide Inverse, Counted, CallersHeld, DevicesHeld, IssuesHeld, SlotRoles, ClientRoles, GateRoles, Joiners, IssueRoles, SameRoutes;
  }

  predicate SameMaps(h: Hub, h': Hub) {
    && h'.devices == h.devices && h'.clients == h.clients && h'.inflight == h.inflight
    && h'.requests == h.requests && h'.active == h.active && h'.issued == h.issued
  }

  /** Sending, reading and storage leave routing alone. */
  lemma FrameKeepsRouting(h: Hub, h': Hub)
    requires Routing(h) && SameMaps(h, h') && h'.roles == h.roles && h'.serial == h.serial
    requires h'.net.Keys == h.net.Keys && h'.inboxes.Keys == h.inboxes.Keys
    requires GateRoles(h'.gates, h.devices, h.roles) && Joiners(h'.gates, h.clients)
    ensures Routing(h')
  {
    hide Inverse, Counted, CallersHeld, DevicesHeld, IssuesHeld, SlotRoles, ClientRoles, GateRoles, Joiners, IssueRoles;
  }

  // ----- Devices and clients ---------------------------------------------------------------------------

  lemma NoRoutesNoMatter(h: Hub, id: string, slot: Slot)
    requires DevicesHeld(h.inflight, h.devices, h.issued) && RoutesOf(h, id) == {}
    ensures DevicesHeld(h.inflight, h.devices[id := slot], h.issued)
    ensures DevicesHeld(h.inflight, h.devices - {id}, h.issued)
  {
    forall r <- h.inflight ensures h.inflight[r].device != id {
      assert r !in RoutesOf(h, id);
    }
  }

  lemma OfflineKeepsRouting(h: Hub, id: string)
    requires Routing(h) && id in h.devices && RoutesOf(h, id) == {}
    ensures Routing(Offline(h, id))
  {
    NoRoutesNoMatter(h, id, h.devices[id].(conn := None, online := false));
    hide Inverse, Counted, CallersHeld, DevicesHeld, IssuesHeld, ClientRoles;
  }

  lemma ForgetKeepsRouting(h: Hub, id: string)
    requires Routing(h) && RoutesOf(h, id) == {}
    ensures Routing(h.(devices := h.devices - {id}, access := h.access - {id}))
  {
    NoRoutesNoMatter(h, id, Slot(0, None, Device(NONE, "", false, NONE, "", NONE, NONE, NONE), false, false));
    hide Inverse, Counted, CallersHeld, DevicesHeld, IssuesHeld, ClientRoles;
  }

  /** A slot with another record, or ready at last, holds the same routes. */
  lemma SlotKeepsRouting(h: Hub, id: string, slot: Slot, access: map<string, Binding>)
    requires Routing(h) && id in h.devices
    requires slot.serial == h.devices[id].serial && slot.conn == h.devices[id].conn && slot.online == h.devices[id].online
    requires h.devices[id].ready ==> slot.ready
    ensures Routing(h.(devices := h.devices[id := slot], access := access))
  {
    hide Inverse, Counted, CallersHeld, IssuesHeld, ClientRoles;
  }

  function Attach(h: Hub, id: string, c: Conn, record: Device): Hub {
    h.(access := h.access[id := record.Bound()],
       devices := h.devices[id := Slot(h.serial, Some(c), record, true, false)],
       serial := h.serial + 1)
  }

  /** While the new connection holds the gate; it goes on to `gates'` at once. */
  lemma AttachKeepsRouting(h: Hub, id: string, c: Conn, record: Device)
    requires Routing(h) && RoutesOf(h, id) == {} && c in h.roles && h.roles[c] == DeviceRole(id)
    ensures Routing(Attach(h, id, c, record).(gates := h.gates - {id}))
  {
    NoRoutesNoMatter(h, id, Slot(h.serial, Some(c), record, true, false));
    hide Inverse, Counted, CallersHeld, DevicesHeld, IssuesHeld, ClientRoles;
  }

  lemma LeaveKeepsRouting(h: Hub, c: Conn)
    requires Routing(h) && RoutesFor(h, c) == {}
    ensures Routing(h.(clients := h.clients - {c}))
  {
    forall r <- h.inflight ensures h.inflight[r].client != c {
      assert r !in RoutesFor(h, c);
    }
    hide Inverse, Counted, DevicesHeld, IssuesHeld, SlotRoles, GateRoles;
  }

  /** A caller that holds the gate is registered and gives the gate up. */
  lemma JoinKeepsRouting(h: Hub, id: string, client: Client, access: map<string, Binding>)
    requires Routing(h) && id in h.gates && h.gates[id].work.Joining? && client.target == id
    ensures Routing(h.(clients := h.clients[h.gates[id].conn := client], access := access, gates := h.gates - {id}))
  {
    var c := h.gates[id].conn;
    assert c !in h.clients && h.roles[c] == ClientRole(id);
    hide Inverse, Counted, DevicesHeld, IssuesHeld, SlotRoles;
  }

  lemma ConnectKeepsRouting(h: Hub)
    requires Routing(h)
    ensures Routing(NewConnection(h))
  {
    hide Inverse, Counted, CallersHeld, DevicesHeld, IssuesHeld, SlotRoles, ClientRoles, GateRoles, Joiners, IssueRoles;
  }

  lemma GreetKeepsRouting(h: Hub, c: Conn, role: Role, p: Pending)
    requires Routing(h) && c in h.net && c !in h.roles && role.id !in h.gates && p.conn == c
    requires if role.DeviceRole? then p.work.Registering? else p.work.Joining?
    ensures Routing(h.(roles := h.roles[c := role], gates := h.gates[role.id := p]))
  {
    assert c !in h.clients;
    hide Inverse, Counted, CallersHeld, DevicesHeld, IssuesHeld;
  }
}
