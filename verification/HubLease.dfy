/** Foreground routes only lose the right to be renewed. */
module HubLease {
  import opened Prelude
  import opened Devices
  import opened Frames
  import opened HubModel
  import opened HubRouting
  import opened HubRecords
  import opened HubWire
  import O = OutboxModel

  /** New leases were granted to routes that could be renewed. */
  predicate Grants(h: Hub, h': Hub) {
    && h.granted <= h'.granted
    && forall i | |h.granted| <= i < |h'.granted| ::
         h'.granted[i].route in h.issued ==> Live(h, h'.granted[i].conn, h'.granted[i].route)
  }

  /** A route that may be renewed after a step could be renewed before it, and so could one that was. */
  ghost predicate Narrows(h: Hub, h': Hub) {
    && (forall r <- h.issued :: r in h'.issued && h'.issued[r] == h.issued[r])
    && (forall r <- h.issued, from: Conn :: Live(h', from, r) ==> Live(h, from, r))
    && Grants(h, h')
  }

  lemma NarrowsOn(a: Hub, b: Hub, c: Hub)
    requires Narrows(a, b) && Narrows(b, c)
    ensures Narrows(a, c)
  {
    hide Live;
  }

  lemma CancelledStays(b: O.Outbox, e: O.Event)
    requires b.cancelled
    ensures O.Step(b, e).cancelled
  {
  }

  /** Every part of `Live` that holds later held before. */
  lemma LiveParts(h: Hub, h': Hub)
    requires h'.granted == h.granted
    requires forall r <- h.issued :: r in h'.issued && h'.issued[r] == h.issued[r]
    requires forall c <- h.net :: c in h'.net && (h.net[c].cancelled ==> h'.net[c].cancelled)
    requires h'.net.Keys == h.net.Keys
    requires forall c <- h'.clients :: c in h.clients
    requires forall r <- h'.inflight :: r in h.issued ==> r in h.inflight && SameRoute(h.inflight[r], h'.inflight[r])
    requires forall id <- h'.devices :: h'.devices[id].conn.Some? ==>
      id in h.devices && h'.devices[id] == h.devices[id] && (id in h'.access ==> id in h.access && h'.access[id] == h.access[id])
    ensures Narrows(h, h')
  {
    forall r <- h.issued, from: Conn | Live(h', from, r) ensures Live(h, from, r) {
      LivePart(h, h', from, r);
    }
  }

  lemma LivePart(h: Hub, h': Hub, from: Conn, r: string)
    requires forall c <- h.net :: c in h'.net && (h.net[c].cancelled ==> h'.net[c].cancelled)
    requires h'.net.Keys == h.net.Keys
    requires forall c <- h'.clients :: c in h.clients
    requires r in h.inflight && r in h'.inflight && SameRoute(h.inflight[r], h'.inflight[r])
    requires forall id <- h'.devices :: h'.devices[id].conn.Some? ==>
      id in h.devices && h'.devices[id] == h.devices[id] && (id in h'.access ==> id in h.access && h'.access[id] == h.access[id])
    requires Live(h', from, r)
    ensures Live(h, from, r)
  {
    var id := h.inflight[r].device;
    assert h'.devices[id].conn.Some?;
    hide Binding.Matches, Device.Bound;
  }

  lemma PutNarrows(h: Hub, c: Conn, e: O.Event, r: string)
    ensures Narrows(h, Put(h, c, e, r).0)
  {
    PutFields(h, c, e, r);
    if c in h.net && h.net[c].cancelled {
      CancelledStays(h.net[c], e);
    }
    hide Put, O.Step, Live;
    NetNarrows(h, Put(h, c, e, r).0);
  }

  lemma NetNarrows(h: Hub, h': Hub)
    requires h' == h.(net := h'.net, wire := h'.wire) && h'.net.Keys == h.net.Keys
    requires forall c <- h.net :: h.net[c].cancelled ==> h'.net[c].cancelled
    ensures Narrows(h, h')
  {
    hide Live;
    LiveParts(h, h');
  }

  lemma FinishNarrows(h: Hub, r: string)
    ensures Narrows(h, Finish(h, r))
  {
    FinishFields(h, r);
    hide Live, Finish;
    RoutesNarrow(h, Finish(h, r));
  }

  lemma AddNarrows(h: Hub, h': Hub, r: string, route: Route, issue: Issue)
    requires h'.granted == h.granted && r !in h.issued && h'.issued == h.issued[r := issue] && h'.inflight == h.inflight[r := route]
    requires forall q <- h.issued :: q in h.inflight ==> q != r
    requires h'.net == h.net && h'.clients == h.clients && h'.devices == h.devices && h'.access == h.access
    ensures Narrows(h, h')
  {
    hide Live;
    LiveParts(h, h');
  }

  /** Routes end or are marked; nothing else that renewals look at changes. */
  lemma RoutesNarrow(h: Hub, h': Hub)
    requires h'.granted == h.granted && h'.issued == h.issued && h'.net == h.net && h'.devices == h.devices && h'.access == h.access
    requires forall c <- h'.clients :: c in h.clients
    requires forall r <- h'.inflight :: r in h.inflight && SameRoute(h.inflight[r], h'.inflight[r])
    ensures Narrows(h, h')
  {
    hide Live;
    LiveParts(h, h');
  }

  /** A device leaves its connection, or is forgotten. */
  lemma DetachNarrows(h: Hub, h': Hub, id: string)
    requires h'.granted == h.granted && h'.issued == h.issued && h'.net == h.net && h'.clients == h.clients && h'.inflight == h.inflight
    requires h'.devices - {id} == h.devices - {id} && h'.access - {id} == h.access - {id}
    requires id in h'.devices ==> h'.devices[id].conn.None?
    ensures Narrows(h, h')
  {
    SameElsewhere(h.devices, h'.devices, id);
    SameElsewhere(h.access, h'.access, id);
    hide Live;
    forall d <- h'.devices | h'.devices[d].conn.Some?
      ensures d in h.devices && h'.devices[d] == h.devices[d]
      ensures d in h'.access ==> d in h.access && h'.access[d] == h.access[d]
    {
      assert d != id;
    }
    LiveParts(h, h');
  }

  /** Whatever happens to a device without routes, a caller without routes, or in the store. */
  lemma AttachNarrows(h: Hub, id: string, c: Conn, record: Device)
    requires RoutesOf(h, id) == {}
    ensures Narrows(h, Attach(h, id, c, record))
  {
    var h' := Attach(h, id, c, record);
    forall r <- h.issued, from: Conn | Live(h', from, r) ensures Live(h, from, r) {
      assert h.inflight[r].device != id by {
        assert r !in RoutesOf(h, id);
      }
      hide Binding.Matches, Device.Bound;
    }
  }

  lemma JoinNarrows(h: Hub, c: Conn, client: Client, id: string, b: Binding)
    requires Routing(h)
    requires id in h.devices && h.devices[id].conn.Some? ==> id in h.access && h.access[id] == b
    ensures Narrows(h, h.(access := h.access[id := b], clients := h.clients[c := client]))
  {
    var h' := h.(access := h.access[id := b], clients := h.clients[c := client]);
    hide Inverse, DevicesHeld, IssuesHeld, Counted, SlotRoles, ClientRoles, GateRoles, Known;
    forall r <- h.issued, from: Conn | Live(h', from, r) ensures Live(h, from, r) {
      hide Binding.Matches, Device.Bound;
    }
  }

  lemma ReadyNarrows(h: Hub, id: string)
    requires Routing(h) && id in h.devices
    ensures Narrows(h, h.(devices := h.devices[id := h.devices[id].(ready := true)]))
  {
    var h' := h.(devices := h.devices[id := h.devices[id].(ready := true)]);
    hide Inverse, CallersHeld, IssuesHeld, Counted, SlotRoles, ClientRoles, GateRoles, Known;
    forall r <- h.issued, from: Conn | Live(h', from, r) ensures Live(h, from, r) {
      hide Binding.Matches, Device.Bound;
    }
  }

  lemma ConnectNarrows(h: Hub)
    requires Routing(h)
    ensures Narrows(h, NewConnection(h))
  {
    var h' := NewConnection(h);
    hide Inverse, DevicesHeld, IssuesHeld, Counted, GateRoles;
    forall r <- h.issued, from: Conn | Live(h', from, r) ensures Live(h, from, r) {
      hide Binding.Matches, Device.Bound;
    }
  }

  /** Publishing a stored record: a binding that is current afterwards was current before, and inbound
      does not come back for a route that may be renewed. */
  lemma RecordedNarrows(h: Hub, id: string, record: Device)
    requires Records(h) && id in h.devices && Stored(h.store, id) == Some(record)
    ensures Narrows(h, Recorded(h, id, record))
  {
    RecordedFields(h, id, record);
    var h' := Recorded(h, id, record);
    hide Recorded, StoreOk, RecordsAgree, GatesAgree, Stored, Usable, Drawn;
    forall r <- h.issued, from: Conn | Live(h', from, r) ensures Live(h, from, r) {
      RecordedLive(h, h', id, record, from, r);
    }
  }

  lemma RecordedLive(h: Hub, h': Hub, id: string, record: Device, from: Conn, r: string)
    requires AccessAgrees(h.devices, h.access, h.store) && RoutesAgree(h.inflight, h.devices, h.store)
    requires id in h.devices && Stored(h.store, id) == Some(record) && r in h.inflight
    requires h' == h.(devices := h.devices[id := h.devices[id].(record := record)],
                      access := h.access[id := record.Bound()], inflight := h'.inflight)
    requires r in h'.inflight
    requires h'.inflight[r] == AfterRecord(h.inflight[r], id, h.devices[id].record.inbound && !record.inbound)
    requires Live(h', from, r)
    ensures Live(h, from, r)
  {
    hide Stored, Usable, Drawn, Device.Bound;
    assert RouteAgrees(h.inflight[r], h.devices, h.store);
  }
}
