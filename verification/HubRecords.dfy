/** The router's device records against the store, across transactions whose outcome is published later
    or never known; and why a binding that was replaced never returns. */
module HubRecords {
  import opened Prelude
  import opened Devices
  import opened HubModel
  import opened HubRouting
  import A = Access
  import History = AccessHistory
  import O = OutboxModel

  // ----- The store -----------------------------------------------------------------------------------

  predicate StoreOk(s: A.Store) {
    && History.Bounded(s)
    && (forall u <- s.grants :: s.grants[u].id < s.next)
    && (forall n <- s.numbers :: s.numbers[n] < s.next)
    && (forall m <- s.numbers, n <- s.numbers :: s.numbers[m] == s.numbers[n] ==> m == n)
  }

  predicate Drawn(b: Binding, s: A.Store) {
    b.deviceUid < s.next && b.grantId < s.next && b.ownershipId < s.next
  }

  lemma StoredIsDrawn(s: A.Store, id: string)
    requires StoreOk(s) && Stored(s, id).Some?
    ensures Drawn(Stored(s, id).value.Bound(), s)
  {
  }

  /** A binding some caller may hold. */
  predicate Usable(b: Binding, s: A.Store) {
    Drawn(b, s) && b.Matches(b)
  }

  /** Seen through one device number, a transaction leaves the binding, removes the device, or makes a
      binding nobody holds. */
  predicate Renews(s: A.Store, later: A.Store, id: string) {
    var now := Stored(later, id);
    || now.None?
    || (Stored(s, id).Some? && now.value.Bound() == Stored(s, id).value.Bound())
    || !Usable(now.value.Bound(), s)
  }

  /** A transaction on device `id`. */
  ghost predicate Touches(s: A.Store, later: A.Store, id: string) {
    && StoreOk(later) && s.next <= later.next
    && (forall other: string :: other != id ==> Stored(later, other) == Stored(s, other))
    && Renews(s, later, id)
  }

  lemma SameStoreTouches(s: A.Store, id: string)
    requires StoreOk(s)
    ensures Touches(s, s, id)
  {
  }

  lemma RegisterTouches(s: A.Store, id: string, secretHash: string, inbound: bool)
    requires StoreOk(s) && A.RegisterDevice(s, id, secretHash, inbound).Ok?
    ensures Touches(s, A.RegisterDevice(s, id, secretHash, inbound).value, id)
    ensures Stored(s, id).Some? ==> A.RegisterDevice(s, id, secretHash, inbound).value == s
  {
    History.RegisterBounded(s, id, secretHash, inbound);
    if id in s.numbers {
      SameStoreTouches(s, id);
    } else {
      RegisterIsNew(s, id, secretHash, inbound);
    }
  }

  lemma RegisterIsNew(s: A.Store, id: string, secretHash: string, inbound: bool)
    requires StoreOk(s) && id !in s.numbers && StoreBounded(A.RegisterDevice(s, id, secretHash, inbound).value)
    ensures Touches(s, A.RegisterDevice(s, id, secretHash, inbound).value, id)
  {
  }

  predicate StoreBounded(s: A.Store) {
    History.Bounded(s)
  }

  /** Rewriting one device's rows does not show through another number. */
  lemma OtherNumbers(s: A.Store, later: A.Store, id: string, uid: Id)
    requires StoreOk(s) && id in s.numbers && s.numbers[id] == uid
    requires forall n <- later.numbers :: n != id ==> n in s.numbers && later.numbers[n] == s.numbers[n]
    requires forall n <- s.numbers :: n != id ==> n in later.numbers
    requires forall u <- s.devices :: u != uid ==> u in later.devices && later.devices[u] == s.devices[u]
    requires forall u <- later.devices :: u != uid ==> u in s.devices
    requires later.grants - {uid} == s.grants - {uid} && later.owners - {uid} == s.owners - {uid}
    ensures forall other: string :: other != id ==> Stored(later, other) == Stored(s, other)
  {
    forall other: string | other != id ensures Stored(later, other) == Stored(s, other) {
      if other in s.numbers {
        var u := s.numbers[other];
        assert u != uid;
        assert (u in s.grants) == (u in s.grants - {uid}) && (u in later.grants) == (u in later.grants - {uid});
        assert (u in s.owners) == (u in s.owners - {uid}) && (u in later.owners) == (u in later.owners - {uid});
        assert u in s.grants ==> s.grants[u] == (s.grants - {uid})[u] == (later.grants - {uid})[u];
        assert u in s.owners ==> s.owners[u] == (s.owners - {uid})[u] == (later.owners - {uid})[u];
      }
    }
  }

  lemma UpdateTouches(s: A.Store, id: string, requested: Device)
    requires StoreOk(s) && A.UpdateDevice(s, id, requested).Ok?
    ensures Touches(s, A.UpdateDevice(s, id, requested).value, id)
  {
    var later := A.UpdateDevice(s, id, requested).value;
    var uid := s.numbers[id];
    History.UpdateBounded(s, id, requested);
    WriteGrants(s, id, requested);
    hide History.Bounded;
    assert later.grants - {uid} == s.grants - {uid};
    OtherNumbers(s, later, id, uid);
    UpdateRenews(s, id, requested);
  }

  lemma WriteGrants(s: A.Store, id: string, requested: Device)
    requires StoreOk(s) && A.UpdateDevice(s, id, requested).Ok?
    ensures var later := A.UpdateDevice(s, id, requested).value;
      && later.next == s.next + 1 && later.numbers == s.numbers && later.owners == s.owners
      && later.devices.Keys == s.devices.Keys
      && (forall u <- s.devices :: u != s.numbers[id] ==> later.devices[u] == s.devices[u])
      && (forall u <- later.grants :: later.grants[u].id < later.next)
  {
    hide History.Bounded;
  }

  lemma UpdateRenews(s: A.Store, id: string, requested: Device)
    requires StoreOk(s) && A.UpdateDevice(s, id, requested).Ok?
    ensures Renews(s, A.UpdateDevice(s, id, requested).value, id)
  {
    hide History.Bounded;
  }

  lemma DeleteTouches(s: A.Store, id: string, uid: Id, secretHash: string)
    requires StoreOk(s) && A.DeleteDevice(s, id, uid, secretHash).Ok?
    ensures Touches(s, A.DeleteDevice(s, id, uid, secretHash).value, id)
    ensures Stored(A.DeleteDevice(s, id, uid, secretHash).value, id).None?
  {
    var later := A.DeleteDevice(s, id, uid, secretHash).value;
    History.DeleteBounded(s, id, uid, secretHash);
    hide History.Bounded;
    OtherNumbers(s, later, id, uid);
  }

  lemma SetOwnerTouches(s: A.Store, id: string, tenant: Id, principal: Id)
    requires StoreOk(s) && Stored(s, id).Some?
    ensures Touches(s, A.SetOwner(s, s.numbers[id], tenant, principal), id)
  {
    var uid := s.numbers[id];
    var later := A.SetOwner(s, uid, tenant, principal);
    History.SetOwnerBounded(s, uid, tenant, principal);
    assert s.next > 0;
    hide History.Bounded;
    assert later.owners - {uid} == s.owners - {uid};
    OtherNumbers(s, later, id, uid);
  }

  /** Shares are nothing a device row shows. */
  lemma SharesTouch(s: A.Store, later: A.Store, id: string)
    requires StoreOk(s) && StoreBounded(later) && s.next <= later.next
    requires later.numbers == s.numbers && later.devices == s.devices && later.grants == s.grants && later.owners == s.owners
    ensures Touches(s, later, id)
    ensures Stored(later, id) == Stored(s, id)
  {
    hide History.Bounded;
  }

  predicate SameSettings(a: Option<Device>, b: Option<Device>) {
    a.Some? && b.Some? && a.value.inbound == b.value.inbound && a.value.uid == b.value.uid
    && a.value.secretHash == b.value.secretHash
  }

  lemma ReplaceShareFrame(s: A.Store, ownership: Id, req: A.Request, now: int)
    ensures var r := A.ReplaceShare(s, ownership, req, now);
      r.Ok? ==> r.value == s.(shares := r.value.shares, next := s.next + 1)
  {
  }

  lemma TransferTouches(s: A.Store, id: string, to: Id)
    requires StoreOk(s) && Stored(s, id).Some? && A.Transfer(s, Stored(s, id).value, to).Ok?
    ensures Touches(s, A.Transfer(s, Stored(s, id).value, to).value, id)
    ensures SameSettings(Stored(s, id), Stored(A.Transfer(s, Stored(s, id).value, to).value, id))
  {
    SameStoreTouches(s, id);
    SetOwnerTouches(s, id, s.members[to].tenant, s.members[to].principal);
    hide StoreOk, Touches;
  }

  lemma ClaimTouches(s: A.Store, id: string, tenant: Id, principal: Id)
    requires StoreOk(s) && Stored(s, id).Some?
    ensures Touches(s, A.SetOwner(s, s.numbers[id], tenant, principal), id)
    ensures SameSettings(Stored(s, id), Stored(A.SetOwner(s, s.numbers[id], tenant, principal), id))
  {
    SetOwnerTouches(s, id, tenant, principal);
    hide StoreOk, Touches;
  }

  lemma ShareTouches(s: A.Store, id: string, ownership: Id, req: A.Request, now: int)
    requires StoreOk(s) && Stored(s, id).Some? && A.ReplaceShare(s, ownership, req, now).Ok?
    ensures Touches(s, A.ReplaceShare(s, ownership, req, now).value, id)
    ensures Stored(A.ReplaceShare(s, ownership, req, now).value, id) == Stored(s, id)
  {
    History.ReplaceShareBounded(s, ownership, req, now);
    ReplaceShareFrame(s, ownership, req, now);
    hide A.ReplaceShare, History.Bounded;
    SharesTouch(s, A.ReplaceShare(s, ownership, req, now).value, id);
  }

  lemma UnshareTouches(s: A.Store, id: string, gone: set<A.ShareKey>)
    requires StoreOk(s) && Stored(s, id).Some?
    ensures Touches(s, A.DropShares(s, gone), id)
    ensures Stored(A.DropShares(s, gone), id) == Stored(s, id)
  {
    History.DropBounded(s, gone);
    hide History.Bounded;
    SharesTouch(s, A.DropShares(s, gone), id);
  }

  lemma MutateTouches(s: A.Store, id: string, actor: Identity, req: A.Request, late: int)
    requires StoreOk(s) && Stored(s, id).Some?
    requires A.Mutate(s, Stored(s, id).value, actor, req, late).Ok?
    ensures Touches(s, A.Mutate(s, Stored(s, id).value, actor, req, late).value, id)
    ensures SameSettings(Stored(s, id), Stored(A.Mutate(s, Stored(s, id).value, actor, req, late).value, id))
    ensures req.action == "status" ==> A.Mutate(s, Stored(s, id).value, actor, req, late).value == s
  {
    hide StoreOk, Touches, A.ReplaceShare, A.NamedShares, A.SetOwner, A.DropShares, A.Transfer;
    var device := Stored(s, id).value;
    SameStoreTouches(s, id);
    if req.action == "claim" {
      ClaimTouches(s, id, actor.tenantId, actor.principalId);
    } else if req.action == "transfer" {
      TransferTouches(s, id, req.membershipId);
    } else if req.action == "share" {
      ShareTouches(s, id, device.ownershipId, req, late);
    } else if req.action == "unshare" {
      UnshareTouches(s, id, A.NamedShares(s, device.ownershipId, req.shareId));
    }
  }

  lemma ManageTouches(s: A.Store, id: string, expected: Device, actor: Identity, req: A.Request, now: int, late: int)
    requires StoreOk(s) && A.Manage(s, id, expected, actor, req, now, late).Ok?
    ensures Stored(s, id).Some?
    ensures Touches(s, A.Manage(s, id, expected, actor, req, now, late).value, id)
    ensures SameSettings(Stored(s, id), Stored(A.Manage(s, id, expected, actor, req, now, late).value, id))
    ensures req.action == "status" ==> A.Manage(s, id, expected, actor, req, now, late).value == s
  {
    hide StoreOk, Touches, A.Mutate, SameSettings, A.RequestOk, A.VerifyActor;
    MutateTouches(s, id, actor, req, late);
  }

  lemma AccountsTouch(w: History.World, e: History.Event)
    requires StoreOk(w.store) && (e.CreatesPrincipal? || e.Issues? || e.Revokes? || e.Activates?)
    ensures var later := History.Step(w, e).store;
      StoreOk(later) && w.store.next <= later.next && forall id: string :: Stored(later, id) == Stored(w.store, id)
  {
    History.StepKeepsBounded(w, e);
    hide History.Bounded;
  }

  // ----- The invariant -------------------------------------------------------------------------------

  /** A change of device `id` has been tried in the store and is not yet published. */
  predicate InDoubt(gates: map<string, Pending>, id: string) {
    id in gates && gates[id].work.Changing? && gates[id].progress != Waiting
  }

  /** A connected device is known by the binding of its record. */
  predicate AccessAgrees(devices: map<string, Slot>, access: map<string, Binding>, s: A.Store) {
    forall id <- devices :: devices[id].conn.Some? ==>
      id in access && access[id] == devices[id].record.Bound() && Drawn(access[id], s)
  }

  /** A connected device's record is the stored one, unless a change is in doubt. */
  predicate RecordsAgree(devices: map<string, Slot>, s: A.Store, gates: map<string, Pending>) {
    forall id <- devices :: devices[id].conn.Some? && !InDoubt(gates, id) ==>
      Stored(s, id) == Some(devices[id].record)
  }

  /** A route's binding is current in the router if it is in the store, and a foreground route that may
      still be renewed belongs to a device that accepts invocations. */
  predicate RouteAgrees(route: Route, devices: map<string, Slot>, s: A.Store) {
    && Usable(route.binding.access, s) && route.device in devices
    && var record := devices[route.device].record;
       && (Stored(s, route.device).Some? && Stored(s, route.device).value.Bound() == route.binding.access
           ==> record.Bound() == route.binding.access)
       && (route.operation == EXEC && !route.cancelled ==> record.inbound)
  }

  predicate RoutesAgree(inflight: map<string, Route>, devices: map<string, Slot>, s: A.Store) {
    forall r <- inflight :: RouteAgrees(inflight[r], devices, s)
  }

  predicate ProgressAgrees(p: Progress, s: A.Store, id: string) {
    p.Good? ==> Stored(s, id) == Some(p.record)
  }

  /** Only the connection that began a change is on its slot, with the record the change began with or
      ends with. */
  predicate SlotAgrees(slot: Slot, p: Pending)
    requires p.work.Changing?
  {
    && slot.serial == p.work.serial && (slot.conn.None? || slot.conn == Some(p.conn))
    && (slot.record == p.work.expected
        || (p.progress.Good? && !p.work.change.Revoke? && slot.record == p.progress.record))
  }

  predicate AccessResultAgrees(p: Pending, s: A.Store, id: string)
    requires p.work.Changing?
  {
    match p.work.change
    case Manages(_, _) =>
      && (p.progress.Good? ==> p.progress.record.inbound == p.work.expected.inbound)
      && (p.progress.Bad? && !MayHaveCommitted(p.work.change, p.progress.code)
          ==> Stored(s, id) == Some(p.work.expected))
    case _ => true
  }

  predicate GateAgrees(id: string, p: Pending, devices: map<string, Slot>, s: A.Store) {
    match p.work
    case Changing(_, _, change) =>
      && (!change.Revoke? ==> ProgressAgrees(p.progress, s, id))
      && (id in devices ==> SlotAgrees(devices[id], p)
                            && (devices[id].conn.Some? ==> AccessResultAgrees(p, s, id)))
    case _ => ProgressAgrees(p.progress, s, id)
  }

  predicate GatesAgree(gates: map<string, Pending>, devices: map<string, Slot>, s: A.Store) {
    forall id <- gates :: GateAgrees(id, gates[id], devices, s)
  }

  predicate Records(h: Hub) {
    && StoreOk(h.store)
    && AccessAgrees(h.devices, h.access, h.store)
    && RecordsAgree(h.devices, h.store, h.gates)
    && RoutesAgree(h.inflight, h.devices, h.store)
    && GatesAgree(h.gates, h.devices, h.store)
  }

  // ----- Steps that keep it ----------------------------------------------------------------------------

  lemma FrameKeepsRecords(h: Hub, h': Hub)
    requires Records(h) && h'.devices == h.devices && h'.access == h.access && h'.inflight == h.inflight
    requires h'.store == h.store && h'.gates == h.gates
    ensures Records(h')
  {
    hide StoreOk, AccessAgrees, RecordsAgree, RoutesAgree, GatesAgree;
  }

  /** Routes go, or change only what may change. */
  lemma FewerRoutesKeepRecords(h: Hub, later: map<string, Route>)
    requires Records(h) && later.Keys <= h.inflight.Keys && forall r <- later :: SameRoute(h.inflight[r], later[r])
    ensures RoutesAgree(later, h.devices, h.store)
  {
    hide StoreOk, AccessAgrees, RecordsAgree, GatesAgree, Usable, Stored;
  }

  lemma FinishKeepsRecords(h: Hub, h': Hub, later: map<string, Route>)
    requires Records(h) && later.Keys <= h.inflight.Keys && forall r <- later :: SameRoute(h.inflight[r], later[r])
    requires h'.devices == h.devices && h'.access == h.access && h'.inflight == later
    requires h'.store == h.store && h'.gates == h.gates
    ensures Records(h')
  {
    FewerRoutesKeepRecords(h, later);
    hide StoreOk, AccessAgrees, RecordsAgree, RoutesAgree, GatesAgree, SameRoute;
  }

  lemma AddKeepsRecords(h: Hub, from: Conn, target: string, exec: string, op: string, r: string)
    requires Records(h) && Admits(h, from, target, exec, r)
    ensures from in h.clients && target in h.devices && h.devices[target].conn.Some?
    ensures Records(AddRoute(h, from, target, exec, op, r))
  {
    AdmitsMeans(h, from, target, exec, r);
    hide Admits, FreshRoute, Refusal, StoreOk, RecordsAgree, GatesAgree, Stored;
  }

  lemma OfflineKeepsRecords(h: Hub, id: string)
    requires Records(h) && id in h.devices
    ensures Records(Offline(h, id))
  {
    var slot := h.devices[id].(conn := None, online := false);
    GatesWithSlot(h, id, slot);
    hide StoreOk, GatesAgree, Usable, Stored, Drawn;
  }

  /** A slot that keeps its incarnation and record, and gains no connection. */
  lemma GatesWithSlot(h: Hub, id: string, slot: Slot)
    requires GatesAgree(h.gates, h.devices, h.store) && id in h.devices
    requires slot.serial == h.devices[id].serial && slot.record == h.devices[id].record
    requires slot.conn.None? || slot.conn == h.devices[id].conn
    ensures GatesAgree(h.gates, h.devices[id := slot], h.store)
  {
    hide ProgressAgrees, AccessResultAgrees;
  }

  lemma ReadyKeepsRecords(h: Hub, id: string)
    requires Records(h) && id in h.devices
    ensures Records(h.(devices := h.devices[id := h.devices[id].(ready := true)]))
  {
    hide StoreOk, GatesAgree, Usable, Stored, Drawn, InDoubt;
    var slot := h.devices[id].(ready := true);
    GatesWithSlot(h, id, slot);
    RoutesWithSlot(h, id, slot);
    RowsWithSlot(h, id, slot);
    hide RoutesAgree, AccessAgrees, RecordsAgree;
  }

  lemma RowsWithSlot(h: Hub, id: string, slot: Slot)
    requires AccessAgrees(h.devices, h.access, h.store) && RecordsAgree(h.devices, h.store, h.gates) && id in h.devices
    requires slot == h.devices[id].(ready := slot.ready)
    ensures AccessAgrees(h.devices[id := slot], h.access, h.store) && RecordsAgree(h.devices[id := slot], h.store, h.gates)
  {
    hide InDoubt, Stored, Drawn, Usable;
  }

  lemma RoutesWithSlot(h: Hub, id: string, slot: Slot)
    requires RoutesAgree(h.inflight, h.devices, h.store) && id in h.devices && slot.record == h.devices[id].record
    ensures RoutesAgree(h.inflight, h.devices[id := slot], h.store)
  {
    hide Usable, Stored;
    forall r <- h.inflight ensures RouteAgrees(h.inflight[r], h.devices[id := slot], h.store) {
      assert RouteAgrees(h.inflight[r], h.devices, h.store);
    }
  }

  /** Other devices' rows are what they were. */
  lemma ElsewhereKeepsRecords(h: Hub, id: string, later: map<string, Slot>, access: map<string, Binding>)
    requires Records(h) && RoutesOf(h, id) == {}
    requires later - {id} == h.devices - {id} && access - {id} == h.access - {id}
    requires id !in later || (later[id].conn.Some? && id in access && access[id] == later[id].record.Bound()
                              && Stored(h.store, id) == Some(later[id].record))
    ensures Records(h.(devices := later, access := access, gates := h.gates - {id}))
  {
    if id in later {
      StoredIsDrawn(h.store, id);
    }
    SameElsewhere(h.devices, later, id);
    SameElsewhere(h.access, access, id);
    RoutesElsewhere(h, id, later);
    hide StoreOk, RoutesAgree, RouteAgrees, Stored, Drawn, SlotAgrees, AccessResultAgrees;
  }

  lemma SameElsewhere<T>(m: map<string, T>, later: map<string, T>, id: string)
    requires later - {id} == m - {id}
    ensures forall k :: k != id ==> (k in later) == (k in m)
    ensures forall k :: k != id && k in m ==> later[k] == m[k]
  {
    forall k: string | k != id ensures (k in later) == (k in m) && (k in m ==> later[k] == m[k]) {
      assert (k in later) == (k in later - {id}) && (k in m) == (k in m - {id});
      assert k in m ==> m[k] == (m - {id})[k] == (later - {id})[k];
    }
  }

  lemma RoutesElsewhere(h: Hub, id: string, later: map<string, Slot>)
    requires RoutesAgree(h.inflight, h.devices, h.store) && RoutesOf(h, id) == {}
    requires forall k :: k != id && k in h.devices ==> k in later && later[k] == h.devices[k]
    ensures RoutesAgree(h.inflight, later, h.store)
  {
    forall r <- h.inflight ensures h.inflight[r].device != id {
      assert r !in RoutesOf(h, id);
    }
    hide Usable, Stored;
  }

  lemma AttachKeepsRecords(h: Hub, id: string, c: Conn, record: Device)
    requires Records(h) && RoutesOf(h, id) == {} && Stored(h.store, id) == Some(record)
    ensures Records(Attach(h, id, c, record).(gates := h.gates - {id}))
  {
    hide Records, Stored;
    var later := Attach(h, id, c, record);
    assert later.devices - {id} == h.devices - {id} && later.access - {id} == h.access - {id};
    ElsewhereKeepsRecords(h, id, later.devices, later.access);
    FrameKeepsRecords(h.(devices := later.devices, access := later.access, gates := h.gates - {id}),
                      later.(gates := h.gates - {id}));
  }

  lemma ForgetKeepsRecords(h: Hub, id: string)
    requires Records(h) && RoutesOf(h, id) == {}
    ensures Records(h.(devices := h.devices - {id}, access := h.access - {id}, gates := h.gates - {id}))
  {
    hide Records, Stored;
    assert (h.devices - {id}) - {id} == h.devices - {id} && (h.access - {id}) - {id} == h.access - {id};
    ElsewhereKeepsRecords(h, id, h.devices - {id}, h.access - {id});
  }

  lemma JoinKeepsRecords(h: Hub, id: string, record: Device)
    requires Records(h) && id in h.gates && !h.gates[id].work.Changing? && Stored(h.store, id) == Some(record)
    ensures Records(h.(access := h.access[id := record.Bound()]))
  {
    StoredIsDrawn(h.store, id);
    hide StoreOk, RoutesAgree, GatesAgree, Stored, Drawn;
  }

  lemma GateKeepsRecords(h: Hub, id: string, p: Pending)
    requires Records(h) && id !in h.gates && p.progress == Waiting
    requires p.work.Changing? ==>
      id in h.devices && p.work.serial == h.devices[id].serial && p.work.expected == h.devices[id].record
      && h.devices[id].conn == Some(p.conn)
    ensures Records(h.(gates := h.gates[id := p]))
  {
    hide StoreOk, RoutesAgree, Stored, Drawn;
  }

  /** The gate may be given up once the router's record is the stored one, or the device is not connected. */
  lemma ReleaseKeepsRecords(h: Hub, id: string)
    requires Records(h)
    requires id in h.devices && h.devices[id].conn.Some? ==> Stored(h.store, id) == Some(h.devices[id].record)
    ensures Records(Release(h, id))
  {
    hide StoreOk, RoutesAgree, Stored, Drawn, SlotAgrees, AccessResultAgrees;
  }

  // ----- Publishing a record ---------------------------------------------------------------------------

  function Recorded(h: Hub, id: string, record: Device): Hub
    requires id in h.devices
  {
    var h1 := SetRecord(h, id, record);
    if h.devices[id].record.inbound && !record.inbound then RevokeForeground(h1, id) else h1
  }

  lemma RecordedRoute(route: Route, devices: map<string, Slot>, s: A.Store, id: string, record: Device, cancelled: bool)
    requires RouteAgrees(route, devices, s) && id in devices && Stored(s, id) == Some(record)
    requires route.cancelled ==> cancelled
    requires route.device == id && devices[id].record.inbound && !record.inbound && route.operation == EXEC ==> cancelled
    ensures RouteAgrees(route.(cancelled := cancelled), devices[id := devices[id].(record := record)], s)
  {
    hide Usable, Stored;
  }

  /** A route after the record was replaced, `off` when that switched inbound off. */
  function AfterRecord(route: Route, id: string, off: bool): Route {
    if off && route.device == id && route.operation == EXEC then route.(cancelled := true) else route
  }

  lemma RecordedFields(h: Hub, id: string, record: Device)
    requires id in h.devices
    ensures var h' := Recorded(h, id, record);
      && h' == h.(devices := h.devices[id := h.devices[id].(record := record)],
                  access := h.access[id := record.Bound()], inflight := h'.inflight)
      && h'.inflight.Keys == h.inflight.Keys
      && forall r <- h.inflight ::
           h'.inflight[r] == AfterRecord(h.inflight[r], id, h.devices[id].record.inbound && !record.inbound)
  {
    ForegroundFields(SetRecord(h, id, record), id);
    hide RevokeForeground;
  }

  lemma ForegroundFields(h: Hub, id: string)
    ensures var h' := RevokeForeground(h, id);
      && h' == h.(inflight := h'.inflight) && h'.inflight.Keys == h.inflight.Keys
      && forall r <- h.inflight :: h'.inflight[r] == AfterRecord(h.inflight[r], id, true)
  {
  }

  lemma RecordedRoutes(h: Hub, id: string, record: Device)
    requires RoutesAgree(h.inflight, h.devices, h.store) && id in h.devices && Stored(h.store, id) == Some(record)
    ensures RoutesAgree(Recorded(h, id, record).inflight, h.devices[id := h.devices[id].(record := record)], h.store)
  {
    RecordedFields(h, id, record);
    var h' := Recorded(h, id, record);
    hide RouteAgrees, Recorded, Stored;
    var devices := h.devices[id := h.devices[id].(record := record)];
    forall r <- h'.inflight ensures RouteAgrees(h'.inflight[r], devices, h.store) {
      RecordedRoute(h.inflight[r], h.devices, h.store, id, record, h'.inflight[r].cancelled);
    }
  }

  lemma RecordedSlots(h: Hub, id: string, record: Device)
    requires Records(h) && id in h.devices && Stored(h.store, id) == Some(record)
    requires id in h.gates && h.gates[id].work.Changing? && !h.gates[id].work.change.Revoke?
    requires h.gates[id].progress == Good(record)
    ensures var devices := h.devices[id := h.devices[id].(record := record)];
      && RecordsAgree(devices, h.store, h.gates) && GatesAgree(h.gates, devices, h.store)
      && AccessAgrees(devices, h.access[id := record.Bound()], h.store)
  {
    StoredIsDrawn(h.store, id);
    hide StoreOk, RoutesAgree, Stored, Drawn, AccessResultAgrees, ProgressAgrees;
  }

  lemma RecordedKeepsRecords(h: Hub, id: string, record: Device)
    requires Records(h) && id in h.devices && Stored(h.store, id) == Some(record)
    requires id in h.gates && h.gates[id].work.Changing? && !h.gates[id].work.change.Revoke?
    requires h.gates[id].progress == Good(record)
    ensures Records(Recorded(h, id, record))
  {
    RecordedFields(h, id, record);
    RecordedRoutes(h, id, record);
    RecordedSlots(h, id, record);
    hide Recorded, StoreOk, RoutesAgree, AccessAgrees, RecordsAgree, GatesAgree, Stored;
  }

  // ----- Transactions ----------------------------------------------------------------------------------

  lemma TouchedRoute(route: Route, devices: map<string, Slot>, s: A.Store, later: A.Store, id: string)
    requires RouteAgrees(route, devices, s) && Touches(s, later, id)
    ensures RouteAgrees(route, devices, later)
  {
    hide StoreOk, Stored;
  }

  /** `p` is the operation at gate `id` once the store is `later`. */
  lemma TouchKeepsRecords(h: Hub, id: string, p: Pending, later: A.Store)
    requires Records(h) && id in h.gates && Touches(h.store, later, id)
    requires GateAgrees(id, p, h.devices, later)
    requires (p.work.Changing? && p.progress != Waiting)
             || (!h.gates[id].work.Changing? && (Stored(h.store, id).Some? ==> Stored(later, id) == Stored(h.store, id)))
    ensures Records(h.(store := later, gates := h.gates[id := p]))
  {
    TouchKeepsRoutes(h, id, later);
    TouchKeepsGates(h, id, p, later);
    hide StoreOk, RoutesAgree, GatesAgree, Stored, Renews, GateAgrees;
  }

  lemma TouchKeepsRoutes(h: Hub, id: string, later: A.Store)
    requires Records(h) && Touches(h.store, later, id)
    ensures RoutesAgree(h.inflight, h.devices, later)
  {
    hide RouteAgrees, Touches, StoreOk, AccessAgrees, RecordsAgree, GatesAgree;
    forall r <- h.inflight ensures RouteAgrees(h.inflight[r], h.devices, later) {
      TouchedRoute(h.inflight[r], h.devices, h.store, later, id);
    }
  }

  lemma TouchKeepsGates(h: Hub, id: string, p: Pending, later: A.Store)
    requires Records(h) && Touches(h.store, later, id) && GateAgrees(id, p, h.devices, later)
    ensures GatesAgree(h.gates[id := p], h.devices, later)
  {
    hide StoreOk, AccessAgrees, RecordsAgree, RoutesAgree, Stored, Renews, SlotAgrees;
  }

  lemma AccountsKeepRecords(h: Hub, now: int, e: History.Event)
    requires Records(h) && (e.CreatesPrincipal? || e.Issues? || e.Revokes? || e.Activates?)
    ensures Records(h.(store := History.Step(History.World(h.store, now), e).store))
  {
    AccountsTouch(History.World(h.store, now), e);
    StoredSame(h, History.Step(History.World(h.store, now), e).store);
  }

  lemma StoredSame(h: Hub, later: A.Store)
    requires Records(h) && StoreOk(later) && h.store.next <= later.next
    requires forall id: string :: Stored(later, id) == Stored(h.store, id)
    ensures Records(h.(store := later))
  {
    hide StoreOk, Stored, SlotAgrees;
  }
}
