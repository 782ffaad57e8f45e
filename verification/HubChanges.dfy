/** What changes of identity do, in every reachable state: who holds the gate, what the transaction is told, and what
    its publication leaves. */
module HubChanges {
  import opened Prelude
  import opened Devices
  import opened Frames
  import opened HubModel
  import opened HubRouting
  import opened HubRecords
  import opened HubWire
  import opened HubLease
  import opened HubSteps
  import opened HubCalls
  import opened HubIdentity
  import opened HubHistory
  import opened HubRenewals
  import opened HubEndings
  import opened HubAnswers
  import A = Access
  import O = OutboxModel

  // ----- Taking the gate -------------------------------------------------------------------------------

  /** A connection that has said nothing yet begins one change of identity at a free gate, and gets its role; the
      device's own connection begins a change of the record it has now. */
  lemma GatesAreTaken(h: Hub, c: Conn, id: string, hash: string, inbound: bool, identity: Identity, change: Change)
    ensures var h' := Step(h, GreetDevice(c, id, hash, inbound));
      if c in h.net && c !in h.roles && id !in h.gates then
        h' == h.(roles := h.roles[c := DeviceRole(id)], gates := h.gates[id := Pending(c, Registering(hash, inbound), Waiting)])
      else h' == h
    ensures var h' := Step(h, GreetClient(c, id, hash, identity));
      if c in h.net && c !in h.roles && id !in h.gates then
        && h'.roles == h.roles[c := ClientRole(id)] && h'.gates.Keys == h.gates.Keys + {id}
        && h'.gates[id].conn == c && h'.gates[id].work.Joining? && h'.gates[id].work.identity == identity
        && h'.gates[id].work.grantHash == hash && h'.gates[id].progress == Waiting
      else h' == h
    ensures id in h.devices && h.devices[id].conn == Some(c) && c in h.roles && h.roles[c] == DeviceRole(id) && id !in h.gates ==>
      Step(h, Changes(c, change))
        == h.(gates := h.gates[id := Pending(c, Changing(h.devices[id].serial, h.devices[id].record, change), Waiting)])
  {
  }

  // ----- The transaction -------------------------------------------------------------------------------

  /** The code of a failure, as the connection is told it. */
  function CodeOf(r: A.Outcome<A.Store>, w: WriteOutcome): string {
    if r.Ok? then "relay_error"
    else
      match r.why
      case Denied => "unauthorized"
      case Invalid => "agent_error"
      case Limit => "quota_exceeded"
      case NotFound => "unknown_device"
  }

  /** The transaction's result, and what its holder learns of it: the committed record or the code of the failure. */
  ghost predicate Tried(h: Hub, h': Hub, id: string, r: A.Outcome<A.Store>, w: WriteOutcome) {
    && id in h.gates && id in h'.gates
    && h'.store == (if r.Refused? || w == FailedBefore then h.store else r.value)
    && h' == h.(store := h'.store, gates := h.gates[id := h.gates[id].(progress := h'.gates[id].progress)])
    && h'.gates[id].progress ==
      if r.Refused? || w != Written then Bad(CodeOf(r, w))
      else if Stored(r.value, id).None? then Bad("unauthorized")
      else Good(Stored(r.value, id).value)
  }

  lemma CommitIsTried(s: A.Store, r: A.Outcome<A.Store>, id: string, w: WriteOutcome)
    ensures Commit(s, r, id, w) ==
      (if r.Refused? || w == FailedBefore then s else r.value,
       if r.Refused? || w != Written then Bad(CodeOf(r, w))
       else if Stored(r.value, id).None? then Bad("unauthorized")
       else Good(Stored(r.value, id).value))
  {
    hide Stored;
  }

  /** A registration is tried in the store. */
  lemma RegistrationIsTried(h: Hub, id: string, now: int, late: int, w: WriteOutcome)
    requires id in h.gates && h.gates[id].progress == Waiting && h.gates[id].work.Registering?
    ensures var work := h.gates[id].work;
      Tried(h, Step(h, Transaction(id, now, late, w)), id, A.RegisterDevice(h.store, id, work.secretHash, work.inbound), w)
  {
    var work := h.gates[id].work;
    CommitIsTried(h.store, A.RegisterDevice(h.store, id, work.secretHash, work.inbound), id, w);
    hide A.RegisterDevice, Commit, Stored;
  }

  /** Settings are tried on the record the change began with. */
  lemma SettingsAreTried(h: Hub, id: string, now: int, late: int, w: WriteOutcome)
    requires id in h.gates && h.gates[id].progress == Waiting && h.gates[id].work.Changing? && h.gates[id].work.change.Settings?
    ensures var expected, change := h.gates[id].work.expected, h.gates[id].work.change;
      Tried(h, Step(h, Transaction(id, now, late, w)), id,
            A.UpdateDevice(h.store, id, expected.(grantHash := change.grantHash, inbound := change.inbound)), w)
  {
    var expected, change := h.gates[id].work.expected, h.gates[id].work.change;
    CommitIsTried(h.store, A.UpdateDevice(h.store, id, expected.(grantHash := change.grantHash, inbound := change.inbound)), id, w);
    hide A.UpdateDevice, Commit, Stored;
  }

  /** An access request is tried for the identity that was vouched for, and for nobody else. */
  lemma AccessIsTried(h: Hub, id: string, now: int, late: int, w: WriteOutcome)
    requires id in h.gates && h.gates[id].progress == Waiting && h.gates[id].work.Changing? && h.gates[id].work.change.Manages?
    ensures var h', expected, change := Step(h, Transaction(id, now, late, w)), h.gates[id].work.expected, h.gates[id].work.change;
      match change.actor
      case Vouched(who) => Tried(h, h', id, A.Manage(h.store, id, expected, who, change.request, now, late), w)
      case Unvouched(code) => h' == h.(gates := h.gates[id := h.gates[id].(progress := Bad(code))])
  {
    var expected, change := h.gates[id].work.expected, h.gates[id].work.change;
    TransactionSteps(h, id, now, late, w);
    hide Step, Perform, PerformChange, A.Manage, Commit, Stored;
    match change.actor
    case Vouched(who) =>
      VouchedChange(h.store, id, expected, change, now, late, w);
      CommitIsTried(h.store, A.Manage(h.store, id, expected, who, change.request, now, late), id, w);
    case Unvouched(_) => UnvouchedChange(h.store, id, expected, change, now, late, w);
  }

  lemma TransactionSteps(h: Hub, id: string, now: int, late: int, w: WriteOutcome)
    requires id in h.gates && h.gates[id].progress == Waiting && h.gates[id].work.Changing?
    ensures var p := h.gates[id];
      var (s, progress) := PerformChange(h.store, id, p.work.expected, p.work.change, now, late, w);
      Step(h, Transaction(id, now, late, w)) == h.(store := s, gates := h.gates[id := p.(progress := progress)])
  {
    hide PerformChange;
  }

  lemma VouchedChange(s: A.Store, id: string, expected: Device, change: Change, now: int, late: int, w: WriteOutcome)
    requires change.Manages? && change.actor.Vouched?
    ensures PerformChange(s, id, expected, change, now, late, w)
      == Commit(s, A.Manage(s, id, expected, change.actor.identity, change.request, now, late), id, w)
  {
    hide A.Manage, Commit;
  }

  lemma UnvouchedChange(s: A.Store, id: string, expected: Device, change: Change, now: int, late: int, w: WriteOutcome)
    requires change.Manages? && change.actor.Unvouched?
    ensures PerformChange(s, id, expected, change, now, late, w) == (s, Bad(change.actor.code))
  {
  }

  /** A revocation is tried for the very device the connection is. */
  lemma RevocationIsTried(h: Hub, id: string, now: int, late: int, w: WriteOutcome)
    requires id in h.gates && h.gates[id].progress == Waiting && h.gates[id].work.Changing? && h.gates[id].work.change.Revoke?
    ensures var h', expected := Step(h, Transaction(id, now, late, w)), h.gates[id].work.expected;
      var r := A.DeleteDevice(h.store, id, expected.uid, expected.secretHash);
      h' == h.(store := if r.Refused? || w == FailedBefore then h.store else r.value,
               gates := h.gates[id := h.gates[id].(progress :=
                 if r.Refused? || w != Written then Bad(CodeOf(r, w)) else Good(expected))])
  {
    hide A.DeleteDevice;
  }

  /** A caller is let in by what the store says: of an unowned device it gets the record, of an owned one besides what
      the authority decides for its identity and this device's binding. */
  lemma JoinIsTried(h: Hub, id: string, now: int, late: int, w: WriteOutcome)
    requires id in h.gates && h.gates[id].progress == Waiting && h.gates[id].work.Joining?
    ensures var h', p, device := Step(h, Transaction(id, now, late, w)), h.gates[id], Stored(h.store, id);
      var next :=
        if w != Written then p.(progress := Bad("relay_error"))
        else if device.None? then p.(progress := Bad("unknown_device"))
        else if device.value.ownershipId == NONE then p.(progress := Good(device.value))
        else
          var told := A.Resolve(h.store, device.value.uid, p.work.identity, now, late);
          if told.None? || told.value.binding != device.value.Bound() then p.(progress := Bad("unauthorized"))
          else p.(progress := Good(device.value), work := p.work.(authorization := told.value));
      h' == h.(gates := h.gates[id := next])
  {
    hide A.Resolve, Stored, Device.Bound;
  }

  // ----- The publication -------------------------------------------------------------------------------

  lemma PublicationSteps(h: Hub, id: string, order: seq<string>, members: seq<Conn>, rest: nat)
    requires Possible(h, Publication(id, order, members, rest))
    ensures id in h.gates && h.gates[id].progress != Waiting && Visits(order, RoutesOf(h, id)) && ClientsListed(h, members, id)
    ensures Step(h, Publication(id, order, members, rest)) == Release(Publish(h, id, order, members, rest), id)
  {
    hide Publish, RoutesOf, Visits, ClientsListed;
  }

  /** The connection is sent the error and closed; the gate is free. */
  predicate TurnedAway(h: Hub, h': Hub, id: string, c: Conn, code: string) {
    && c in h.net
    && var h1 := Sent(h, c, Frame(Kind.Error, "", "", code, "", false, 0), "");
       h' == h1.(net := h1.net[c := O.Step(h1.net[c], O.CloseIt)], wire := h1.wire + [Signal(c, O.CloseIt, "", O.Accepted)],
                 gates := h.gates - {id})
  }

  lemma TurnedIs(h: Hub, id: string, c: Conn, code: string)
    requires c in h.net
    ensures TurnedAway(h, Release(Turned(h, c, code), id), id, c, code)
  {
    PutIsSent(h, c, Reply(Error, code, 0), "");
    PutFields(Sent(h, c, Reply(Error, code, 0), ""), c, O.CloseIt, "");
    hide Put, O.Enqueue, O.Step;
  }

  /** A device whose registration is committed takes its slot as soon as its greeting is queued: it is online there
      with the committed record, not yet ready, known by that record's binding, and nothing of an earlier connection
      of the device is left in flight. A connection that is gone, or does not take the greeting, is turned away. */
  lemma DeviceJoins(events: seq<Event>, id: string, order: seq<string>, members: seq<Conn>, rest: nat)
    requires var h := Run(Fresh, events);
      && Possible(h, Publication(id, order, members, rest)) && id in h.gates
      && h.gates[id].work.Registering? && h.gates[id].progress.Good?
      && h.gates[id].conn in h.net
    ensures var h := Run(Fresh, events);
      DeviceJoined(h, Step(h, Publication(id, order, members, rest)), id, h.gates[id].conn, h.gates[id].progress.record)
  {
    hide Run, Narrows, Sane, Possible, Step, DeviceJoined;
    FreshIsSane();
    RunSane(Fresh, events);
    DeviceJoinsAt(Run(Fresh, events), id, order, members, rest);
  }

  lemma DeviceJoinsAt(h: Hub, id: string, order: seq<string>, members: seq<Conn>, rest: nat)
    requires Sane(h) && Possible(h, Publication(id, order, members, rest))
    requires id in h.gates && h.gates[id].work.Registering? && h.gates[id].progress.Good? && h.gates[id].conn in h.net
    ensures DeviceJoined(h, Step(h, Publication(id, order, members, rest)), id, h.gates[id].conn, h.gates[id].progress.record)
  {
    hide Sane, Possible, Step, DeviceJoined, RoutesOf, Visits, ClientsListed, Publish;
    PublicationSteps(h, id, order, members, rest);
    GateHolder(h, id);
    if id !in h.devices || h.devices[id].conn.None? {
      NoOrphans(h, id);
    }
    DeviceJoinsOn(h, id, order, members, rest);
  }

  ghost predicate DeviceJoined(h: Hub, h': Hub, id: string, c: Conn, record: Device) {
    var hello := Frame(Kind.HelloOK, "", "", "", "", false, 0);
    && c in h.net
    && if h.net[c].cancelled then TurnedAway(h, h', id, c, "relay_error")
       else if !Takes(h, c, hello) then TurnedAway(Sent(h, c, hello, ""), h', id, c, "relay_error")
       else
         && id in h'.devices && h'.devices[id] == Slot(h.serial, Some(c), record, true, false)
         && id in h'.access && h'.access[id] == record.Bound() && id !in h'.gates
         && Told(h, h', c, hello, "")
         && (forall r <- h'.inflight :: h'.inflight[r].device != id)
         && (forall d <- h.devices :: d != id ==> d in h'.devices && h'.devices[d] == h.devices[d])
  }

  lemma GateHolder(h: Hub, id: string)
    requires Sane(h) && id in h.gates && h.gates[id].work.Registering?
    ensures id in h.devices ==> h.devices[id].conn != Some(h.gates[id].conn)
  {
    hide Inverse, CallersHeld, DevicesHeld, IssuesHeld, Counted, SlotRoles, ClientRoles, Joiners, IssueRoles, Known, Records, Wired;
  }

  /** A device without a connection has no routes. */
  lemma NoOrphans(h: Hub, id: string)
    requires Sane(h) && (id !in h.devices || h.devices[id].conn.None?)
    ensures RoutesOf(h, id) == {}
  {
    hide Inverse, CallersHeld, IssuesHeld, Counted, SlotRoles, ClientRoles, GateRoles, Joiners, IssueRoles, Known, Records, Wired;
  }

  lemma DeviceJoinsOn(h: Hub, id: string, order: seq<string>, members: seq<Conn>, rest: nat)
    requires id in h.gates && h.gates[id].work.Registering? && h.gates[id].progress.Good? && h.gates[id].conn in h.net
    requires Visits(order, RoutesOf(h, id)) && (id in h.devices ==> h.devices[id].conn != Some(h.gates[id].conn))
    requires id !in h.devices || h.devices[id].conn.None? ==> RoutesOf(h, id) == {}
    ensures DeviceJoined(h, Release(Publish(h, id, order, members, rest), id), id, h.gates[id].conn, h.gates[id].progress.record)
  {
    var c, hello := h.gates[id].conn, Reply(HelloOK, "", 0);
    var h1 := Sent(h, c, hello, "");
    PutIsSent(h, c, hello, "");
    hide Put, Turned, TurnedAway, Told, Device.Bound, Replaced, RoutesOf, Visits;
    if h.net[c].cancelled {
      TurnedIs(h, id, c, RELAY_ERROR);
    } else if !Takes(h, c, hello) {
      TurnedIs(h1, id, c, RELAY_ERROR);
      hide Sent;
    } else {
      hide DeviceJoined;
      assert Publish(h, id, order, members, rest) == Seated(h, id, c, h.gates[id].progress.record, order);
      hide Publish;
      SeatedJoins(h, id, c, h.gates[id].progress.record, order);
    }
  }

  /** The greeting, the loss of an earlier connection, and the slot. */
  function Seated(h: Hub, id: string, c: Conn, record: Device, order: seq<string>): Hub
    requires c in h.net
  {
    var h2 := Replaced(Sent(h, c, Reply(HelloOK, "", 0), ""), id, c, order);
    h2.(access := h2.access[id := record.Bound()],
        devices := h2.devices[id := Slot(h2.serial, Some(c), record, true, false)], serial := h2.serial + 1)
  }

  lemma SeatedJoins(h: Hub, id: string, c: Conn, record: Device, order: seq<string>)
    requires c in h.net && !h.net[c].cancelled && Takes(h, c, Reply(HelloOK, "", 0))
    requires Visits(order, RoutesOf(h, id)) && (id in h.devices ==> h.devices[id].conn != Some(c))
    requires id !in h.devices || h.devices[id].conn.None? ==> RoutesOf(h, id) == {}
    ensures DeviceJoined(h, Release(Seated(h, id, c, record, order), id), id, c, record)
  {
    var hello := Reply(HelloOK, "", 0);
    var h1 := Sent(h, c, hello, "");
    hide Told, Device.Bound, Replaced, RoutesOf, Visits, TurnedAway;
    SameRoutes(h, h1, id);
    ReplacedLeaves(h1, id, c, order);
    var h2 := Replaced(h1, id, c, order);
    SentIsTold(h, c, hello);
    ToldLater(h, h1, h2, c, hello, "");
    SameTold(h, h2, Release(Seated(h, id, c, record, order), id), c, hello, "");
  }

  lemma SentIsTold(h: Hub, c: Conn, f: Frame)
    requires c in h.net
    ensures Told(h, Sent(h, c, f, ""), c, f, "")
  {
    assert Sent(h, c, f, "").wire[|h.wire|].conn == c;
  }

  lemma ReplacedLeaves(h: Hub, id: string, c: Conn, order: seq<string>)
    requires Visits(order, RoutesOf(h, id)) && (id in h.devices ==> h.devices[id].conn != Some(c))
    requires id !in h.devices || h.devices[id].conn.None? ==> RoutesOf(h, id) == {}
    ensures var h' := Replaced(h, id, c, order);
      SameBeside(h, h') && forall r <- h'.inflight :: h'.inflight[r].device != id
  {
    if id in h.devices && h.devices[id].conn.Some? {
      AllFailed(h, id, order);
      var h1 := FailDevice(h, order, DEVICE_OFFLINE);
      SendFields(h1, h.devices[id].conn.value, O.CloseIt, "");
      PutFields(h1, h.devices[id].conn.value, O.CloseIt, "");
      hide FailDevice, Put, RoutesOf, Visits, O.Step;
    } else {
      forall r <- h.inflight ensures h.inflight[r].device != id {
        assert h.inflight[r].device == id ==> r in RoutesOf(h, id);
      }
      hide FailDevice, RoutesOf, Visits;
    }
  }

  lemma AllFailed(h: Hub, id: string, order: seq<string>)
    requires Visits(order, RoutesOf(h, id))
    ensures var h' := FailDevice(h, order, DEVICE_OFFLINE);
      && SameBeside(h, h')
      && forall r <- h'.inflight :: r in h.inflight && h'.inflight[r] == h.inflight[r] && h'.inflight[r].device != id
  {
    FailedAreGone(h, order, DEVICE_OFFLINE);
    hide FailDevice, SameBeside;
    var h' := FailDevice(h, order, DEVICE_OFFLINE);
    forall r <- h'.inflight ensures h'.inflight[r].device != id {
      InRoutes(h, 0, order, r);
    }
  }

  /** A caller the store let in is registered as soon as its greeting is queued, with the binding it proved: an owned
      device's with the decision of the authority, any other's with every permission if the secret's hash is the one
      the device shares under. */
  lemma CallerJoins(events: seq<Event>, id: string, order: seq<string>, members: seq<Conn>, rest: nat)
    requires var h := Run(Fresh, events);
      && Possible(h, Publication(id, order, members, rest)) && h.gates[id].work.Joining? && h.gates[id].progress.Good?
      && h.gates[id].conn in h.net
    ensures var h := Run(Fresh, events);
      CallerJoined(h, Step(h, Publication(id, order, members, rest)), id, h.gates[id], h.gates[id].progress.record)
  {
    var h := Run(Fresh, events);
    hide Run;
    PublicationSteps(h, id, order, members, rest);
    hide Possible, Step, ClientsListed, RoutesOf, Visits;
    var p := h.gates[id];
    var c, hello := p.conn, Reply(HelloOK, "", 0);
    PutIsSent(h, c, hello, "");
    TurnedIs(h, id, c, RELAY_ERROR);
    TurnedIs(h, id, c, UNAUTHORIZED);
    TurnedIs(Sent(h, c, hello, ""), id, c, RELAY_ERROR);
    hide Put, Turned, TurnedAway, Device.Bound;
  }

  predicate CallerJoined(h: Hub, h': Hub, id: string, p: Pending, record: Device)
    requires p.work.Joining?
  {
    var c, hello := p.conn, Frame(Kind.HelloOK, "", "", "", "", false, 0);
    if c !in h.net || h.net[c].cancelled then TurnedAway(h, h', id, c, "relay_error")
    else if record.ownershipId == NONE
            && !(record.grantHash != "" && record.grantHash == p.work.grantHash && record.uid != NONE && record.grantId != NONE)
    then TurnedAway(h, h', id, c, "unauthorized")
    else if !Takes(h, c, hello) then TurnedAway(Sent(h, c, hello, ""), h', id, c, "relay_error")
    else
      var decision :=
        if record.ownershipId == NONE then Authorization(Binding(record.uid, record.grantId, NONE), NONE, OPERATIONS, 0)
        else p.work.authorization;
      h' == Sent(h.(access := h.access[id := record.Bound()], gates := h.gates - {id},
                    clients := h.clients[c := Client(id, record.Bound(), p.work.identity, decision)]), c, hello, "")
  }

  /** A failed registration or admission turns the connection away with its code. */
  lemma GreetingFails(events: seq<Event>, id: string, order: seq<string>, members: seq<Conn>, rest: nat)
    requires var h := Run(Fresh, events);
      && Possible(h, Publication(id, order, members, rest)) && !h.gates[id].work.Changing? && h.gates[id].progress.Bad?
      && h.gates[id].conn in h.net
    ensures var h := Run(Fresh, events);
      TurnedAway(h, Step(h, Publication(id, order, members, rest)), id, h.gates[id].conn, h.gates[id].progress.code)
  {
    var h := Run(Fresh, events);
    hide Run;
    PublicationSteps(h, id, order, members, rest);
    hide Possible, Step, ClientsListed, RoutesOf, Visits;
    TurnedIs(h, id, h.gates[id].conn, h.gates[id].progress.code);
    hide Turned, TurnedAway;
  }

  // ----- Changes by the device itself ------------------------------------------------------------------

  /** The slot a change began with. */
  predicate SameSlot(h: Hub, id: string) {
    id in h.gates && h.gates[id].work.Changing? && id in h.devices && h.devices[id].serial == h.gates[id].work.serial
  }

  /** Committed settings are published on the slot they began with: its record and binding are the committed ones; if
      they switch inbound off, exactly the device's foreground routes are marked; and once the confirmation is queued
      the device is ready. */
  lemma SettingsApply(events: seq<Event>, id: string, order: seq<string>, members: seq<Conn>, rest: nat)
    requires var h := Run(Fresh, events);
      && Possible(h, Publication(id, order, members, rest)) && id in h.gates && h.gates[id].work.Changing?
      && h.gates[id].work.change.Settings? && h.gates[id].progress.Good? && h.gates[id].conn in h.net
    ensures var h := Run(Fresh, events);
      var h' := Step(h, Publication(id, order, members, rest));
      if !SameSlot(h, id) then h' == h.(gates := h.gates - {id})
      else SettingsApplied(h, h', id, h.gates[id].conn, h.gates[id].progress.record)
  {
    hide Run, Narrows, Sane, Possible, Step, SettingsApplied;
    FreshIsSane();
    RunSane(Fresh, events);
    SettingsApplyAt(Run(Fresh, events), id, order, members, rest);
  }

  lemma SettingsApplyAt(h: Hub, id: string, order: seq<string>, members: seq<Conn>, rest: nat)
    requires Sane(h) && Possible(h, Publication(id, order, members, rest))
    requires id in h.gates && h.gates[id].work.Changing? && h.gates[id].work.change.Settings?
    requires h.gates[id].progress.Good? && h.gates[id].conn in h.net
    ensures var h' := Step(h, Publication(id, order, members, rest));
      if !SameSlot(h, id) then h' == h.(gates := h.gates - {id})
      else SettingsApplied(h, h', id, h.gates[id].conn, h.gates[id].progress.record)
  {
    hide Sane, Possible, Step, SettingsApplied, RoutesOf, Visits, ClientsListed, PublishSettings;
    PublicationSteps(h, id, order, members, rest);
    if SameSlot(h, id) && h.devices[id].conn == Some(h.gates[id].conn) {
      SlotIsItsDevice(h, id, h.gates[id].conn);
    }
    SettingsOn(h, id, order);
  }

  ghost predicate SettingsApplied(h: Hub, h': Hub, id: string, c: Conn, record: Device) {
    var reply := Frame(Kind.SettingsResult, "", "", "", "", false, 0);
    && c in h.net && id in h.devices && id in h'.devices
    && h'.devices[id].record == record && id in h'.access && h'.access[id] == record.Bound()
    && (Takes(h, c, reply) ==>
          h' == Sent(h.(devices := h.devices[id := h.devices[id].(record := record, ready := true)],
                        access := h.access[id := record.Bound()], gates := h.gates - {id},
                        inflight := Marked(h, id, record)), c, reply, ""))
    && Told(h, h', c, reply, "")
    && (!Takes(h, c, reply) && h.devices[id].conn == Some(c) ==>
          && h'.devices[id].conn.None? && !h'.devices[id].online
          && forall r <- h'.inflight :: h'.inflight[r].device != id)
  }

  /** The routes after settings: foreground ones of the device are marked when inbound goes off. */
  function Marked(h: Hub, id: string, record: Device): map<string, Route>
    requires id in h.devices
  {
    map r | r in h.inflight ::
      if h.devices[id].record.inbound && !record.inbound && h.inflight[r].device == id && h.inflight[r].operation == "exec"
      then h.inflight[r].(cancelled := true) else h.inflight[r]
  }

  lemma SettingsOn(h: Hub, id: string, order: seq<string>)
    requires id in h.gates && h.gates[id].work.Changing? && h.gates[id].progress.Good? && h.gates[id].conn in h.net
    requires Visits(order, RoutesOf(h, id))
    requires SameSlot(h, id) && h.devices[id].conn == Some(h.gates[id].conn) ==> DeviceOf(h, h.gates[id].conn) == Some(id)
    ensures var h' := Release(PublishSettings(h, id, h.gates[id], h.gates[id].progress.record, order), id);
      if !SameSlot(h, id) then h' == h.(gates := h.gates - {id})
      else SettingsApplied(h, h', id, h.gates[id].conn, h.gates[id].progress.record)
  {
    hide Device.Bound, SettingsApplied;
    if SameSlot(h, id) {
      SettingsHere(h, id, order);
    }
  }

  lemma SettingsHere(h: Hub, id: string, order: seq<string>)
    requires SameSlot(h, id) && h.gates[id].progress.Good? && h.gates[id].conn in h.net && Visits(order, RoutesOf(h, id))
    requires h.devices[id].conn == Some(h.gates[id].conn) ==> DeviceOf(h, h.gates[id].conn) == Some(id)
    ensures SettingsApplied(h, Release(PublishSettings(h, id, h.gates[id], h.gates[id].progress.record, order), id),
                            id, h.gates[id].conn, h.gates[id].progress.record)
  {
    var c, record, reply := h.gates[id].conn, h.gates[id].progress.record, Reply(SettingsResult, "", 0);
    var h2 := h.(devices := h.devices[id := h.devices[id].(record := record)], access := h.access[id := record.Bound()],
                 inflight := Marked(h, id, record));
    SameMarked(h, id, record);
    PublishedSettings(h, id, order);
    hide Marked, Device.Bound, RoutesOf, Visits, Confirm, PublishSettings, SettingsApplied, O.Enqueue, Takes, Sent, DeviceOf;
    ConfirmAnswers(h2, c, reply, order, id);
    var (h3, ok) := Confirm(h2, c, reply, order);
    SameTakes(h, h2, c, reply);
    SameSlotOf(h, h2, c);
    SettingsSum(h, id, c, record, h3, ok);
  }

  lemma SameTakes(h: Hub, h2: Hub, c: Conn, f: Frame)
    requires h.net == h2.net
    ensures Takes(h, c, f) == Takes(h2, c, f)
  {
  }

  lemma SameSlotOf(h: Hub, h2: Hub, c: Conn)
    requires h2.roles == h.roles && h2.devices.Keys == h.devices.Keys
    requires forall d <- h.devices :: h2.devices[d].conn == h.devices[d].conn
    ensures DeviceOf(h2, c) == DeviceOf(h, c)
  {
  }

  /** What the confirmation and the last touches come to. */
  lemma SettingsSum(h: Hub, id: string, c: Conn, record: Device, h3: Hub, ok: bool)
    requires c in h.net && id in h.devices && ok == Takes(h, c, Reply(SettingsResult, "", 0))
    requires var reply := Reply(SettingsResult, "", 0);
      var h2 := h.(devices := h.devices[id := h.devices[id].(record := record)], access := h.access[id := record.Bound()],
                   inflight := Marked(h, id, record));
      && (ok ==> h3 == Sent(h2, c, reply, ""))
      && h.wire + [Signal(c, O.Send(reply), "", O.Enqueue(h.net[c], reply).1)] <= h3.wire
      && h3.access == h2.access && id in h3.devices && h3.devices[id].record == record && h3.gates == h.gates
      && (!ok && h.devices[id].conn == Some(c) ==>
            h3.devices[id].conn.None? && !h3.devices[id].online && forall r <- h3.inflight :: h3.inflight[r].device != id)
    ensures var h4 := if ok then h3.(devices := h3.devices[id := h3.devices[id].(ready := true)]) else h3;
      SettingsApplied(h, Release(h4, id), id, c, record)
  {
    var reply := Reply(SettingsResult, "", 0);
    var h2 := h.(devices := h.devices[id := h.devices[id].(record := record)], access := h.access[id := record.Bound()],
                 inflight := Marked(h, id, record));
    var h4 := if ok then h3.(devices := h3.devices[id := h3.devices[id].(ready := true)]) else h3;
    hide Marked, Device.Bound, Sent, Takes, Told, O.Enqueue;
    PrefixTold(h, h3, c, reply, "", O.Enqueue(h.net[c], reply).1);
    SameTold(h, h3, Release(h4, id), c, reply, "");
    ReadyIsSent(h2, c, reply, id);
  }

  /** Readiness and the free gate do not depend on what was sent. */
  lemma ReadyIsSent(h: Hub, c: Conn, f: Frame, id: string)
    requires c in h.net && id in h.devices
    ensures var h1 := Sent(h, c, f, "");
      && h1.devices == h.devices
      && Release(h1.(devices := h1.devices[id := h1.devices[id].(ready := true)]), id)
        == Sent(h.(devices := h.devices[id := h.devices[id].(ready := true)], gates := h.gates - {id}), c, f, "")
  {
    hide O.Enqueue;
  }

  lemma PublishedSettings(h: Hub, id: string, order: seq<string>)
    requires SameSlot(h, id) && h.gates[id].progress.Good?
    ensures var c, record, reply := h.gates[id].conn, h.gates[id].progress.record, Reply(SettingsResult, "", 0);
      var h2 := h.(devices := h.devices[id := h.devices[id].(record := record)], access := h.access[id := record.Bound()],
                   inflight := Marked(h, id, record));
      var (h3, ok) := Confirm(h2, c, reply, order);
      PublishSettings(h, id, h.gates[id], record, order) ==
        if ok && id in h3.devices then h3.(devices := h3.devices[id := h3.devices[id].(ready := true)]) else h3
  {
    RecordedIs(h, id, h.gates[id].progress.record);
    hide RevokeForeground, Marked, SetRecord, Device.Bound, Confirm;
  }

  lemma PrefixTold(h: Hub, h': Hub, c: Conn, f: Frame, r: string, result: O.Admission)
    requires h.wire + [Signal(c, O.Send(f), r, result)] <= h'.wire
    ensures Told(h, h', c, f, r)
  {
    assert (h.wire + [Signal(c, O.Send(f), r, result)])[|h.wire|] == h'.wire[|h.wire|];
  }

  lemma RecordedIs(h: Hub, id: string, record: Device)
    requires id in h.devices
    ensures var h1 := SetRecord(h, id, record);
      (if h.devices[id].record.inbound && !record.inbound then RevokeForeground(h1, id) else h1)
        == h.(devices := h.devices[id := h.devices[id].(record := record)], access := h.access[id := record.Bound()],
              inflight := Marked(h, id, record))
  {
    assert !(h.devices[id].record.inbound && !record.inbound) ==> Marked(h, id, record) == h.inflight;
  }

  lemma SameMarked(h: Hub, id: string, record: Device)
    requires id in h.devices
    ensures forall h2: Hub :: h2.inflight == Marked(h, id, record) ==> RoutesOf(h2, id) == RoutesOf(h, id)
  {
  }

  /** The confirmation, and what happens when it is not taken. */
  lemma ConfirmAnswers(h: Hub, c: Conn, f: Frame, order: seq<string>, id: string)
    requires c in h.net
    ensures var (h', ok) := Confirm(h, c, f, order);
      && ok == Takes(h, c, f) && (ok ==> h' == Sent(h, c, f, ""))
      && h.wire + [Signal(c, O.Send(f), "", O.Enqueue(h.net[c], f).1)] <= h'.wire
      && h'.access == h.access && h'.devices.Keys == h.devices.Keys && h'.gates == h.gates && h'.clients == h.clients
      && (forall d <- h.devices :: h'.devices[d].record == h.devices[d].record)
      && (!ok && DeviceOf(h, c) == Some(id) && Visits(order, RoutesOf(h, id)) ==>
            && h'.devices[id].conn.None? && !h'.devices[id].online
            && forall r <- h'.inflight :: h'.inflight[r].device != id)
  {
    PutIsSent(h, c, f, "");
    hide Put;
    var h1 := Sent(h, c, f, "");
    StopAnswers(h1, c, order);
    var h2 := StopRouting(h1, c, order);
    SendFields(h2, c, O.CloseIt, "");
    PutFields(h2, c, O.CloseIt, "");
    SameRoutes(h, h1, id);
    hide StopRouting, RoutesOf, Visits, O.Step, O.Enqueue;
  }

  lemma SameRoutes(h: Hub, h1: Hub, id: string)
    requires h1.inflight == h.inflight
    ensures RoutesOf(h1, id) == RoutesOf(h, id)
  {
  }

  /** Stopping the routing of a connection's device. */
  lemma StopAnswers(h: Hub, c: Conn, order: seq<string>)
    ensures var h' := StopRouting(h, c, order);
      && h.wire <= h'.wire && h'.net.Keys == h.net.Keys && h'.access == h.access && h'.gates == h.gates && h'.clients == h.clients
      && h'.devices.Keys == h.devices.Keys
      && (forall d <- h.devices :: h'.devices[d].record == h.devices[d].record)
      && (DeviceOf(h, c).None? ==> h' == h)
      && (DeviceOf(h, c).Some? && Visits(order, RoutesOf(h, DeviceOf(h, c).value)) ==>
            var id := DeviceOf(h, c).value;
            && h'.devices[id].conn.None? && !h'.devices[id].online
            && (forall d <- h.devices :: d != id ==> h'.devices[d] == h.devices[d])
            && (forall r <- h'.inflight :: h'.inflight[r].device != id && r in h.inflight && h'.inflight[r] == h.inflight[r]))
  {
    FailedAreGone(h, order, DEVICE_OFFLINE);
    if DeviceOf(h, c).Some? && Visits(order, RoutesOf(h, DeviceOf(h, c).value)) {
      AllFailed(h, DeviceOf(h, c).value, order);
    }
    hide FailDevice, RoutesOf, Visits;
  }

  /** A committed deletion forgets the device the change began with: its slot and binding go, with all its routes, whose
      callers are sent the error. */
  lemma DeletionApplies(events: seq<Event>, id: string, order: seq<string>, members: seq<Conn>, rest: nat)
    requires var h := Run(Fresh, events);
      && Possible(h, Publication(id, order, members, rest)) && id in h.gates && h.gates[id].work.Changing?
      && h.gates[id].work.change.Revoke? && h.gates[id].progress.Good?
    ensures var h := Run(Fresh, events);
      var h' := Step(h, Publication(id, order, members, rest));
      if !SameSlot(h, id) then h' == h.(gates := h.gates - {id})
      else
        && h'.devices == h.devices - {id} && h'.access == h.access - {id} && h'.gates == h.gates - {id}
        && (forall r <- h'.inflight :: r in h.inflight && h'.inflight[r] == h.inflight[r] && h'.inflight[r].device != id)
        && (forall r <- h.inflight :: h.inflight[r].device == id ==>
              && r in h.issued
              && Told(h, h', h.issued[r].client, Frame(Kind.Error, h.issued[r].request, "", "device_offline", "", false, 0), r))
  {
    hide Run, Narrows, Sane, Possible, Step, Told;
    FreshIsSane();
    RunSane(Fresh, events);
    var h := Run(Fresh, events);
    hide RoutesOf, Visits, ClientsListed, PublishRevoke;
    PublicationSteps(h, id, order, members, rest);
    if SameSlot(h, id) {
      DeletionOn(h, id, order);
    } else {
      DeletionOff(h, id, order);
    }
  }

  lemma DeletionOff(h: Hub, id: string, order: seq<string>)
    requires id in h.gates && h.gates[id].work.Changing? && !SameSlot(h, id)
    ensures PublishRevoke(h, id, h.gates[id], order) == h
  {
  }

  lemma DeletionOn(h: Hub, id: string, order: seq<string>)
    requires Sane(h) && SameSlot(h, id) && Visits(order, RoutesOf(h, id))
    ensures var h' := PublishRevoke(h, id, h.gates[id], order);
      && h'.devices == h.devices - {id} && h'.access == h.access - {id} && h'.gates == h.gates
      && (forall r <- h'.inflight :: r in h.inflight && h'.inflight[r] == h.inflight[r] && h'.inflight[r].device != id)
      && (forall r <- h.inflight :: h.inflight[r].device == id ==>
            r in h.issued && Told(h, Release(h', id), h.issued[r].client, Err(h.issued[r].request, DEVICE_OFFLINE), r))
  {
    hide Sane, Told, RoutesOf, Visits, FailDevice, SameBeside, CloseConn;
    AllFailed(h, id, order);
    var c := h.gates[id].conn;
    var h1 := FailDevice(h, order, DEVICE_OFFLINE);
    ClosingKeeps(h1, c);
    var h2 := CloseConn(h1, c);
    BesideMeans(h, h1);
    forall r <- h.inflight | h.inflight[r].device == id
      ensures r in h.issued && Told(h, Release(PublishRevoke(h, id, h.gates[id], order), id), h.issued[r].client,
                                    Err(h.issued[r].request, DEVICE_OFFLINE), r)
    {
      InRoutes(h, c, order, r);
      EndsAreConnected(h, r);
      LostDeviceTellsItsCallers(h, order, DEVICE_OFFLINE, r);
      ToldLater(h, h1, h2, h.issued[r].client, Err(h.issued[r].request, DEVICE_OFFLINE), r);
      SameTold(h, h2, Release(PublishRevoke(h, id, h.gates[id], order), id), h.issued[r].client,
               Err(h.issued[r].request, DEVICE_OFFLINE), r);
    }
  }

  lemma ClosingKeeps(h: Hub, c: Conn)
    ensures var h' := CloseConn(h, c); h' == h.(net := h'.net, wire := h'.wire) && h.wire <= h'.wire
  {
    PutFields(h, c, O.CloseIt, "");
    hide Put, O.Step;
  }

  lemma BesideMeans(h: Hub, h': Hub)
    requires SameBeside(h, h')
    ensures h'.devices == h.devices && h'.access == h.access && h'.gates == h.gates && h'.clients == h.clients
    ensures h'.roles == h.roles && h'.issued == h.issued && h.wire <= h'.wire && h'.net.Keys == h.net.Keys
  {
  }

  // ----- Requests on access ----------------------------------------------------------------------------

  /** A committed change of hands drops every caller of the device and ends every route of it, at both ends; any other
      access request leaves them alone. Either way the slot it began with has the committed record and binding, and
      the device is sent the result. */
  lemma AccessApplies(events: seq<Event>, id: string, order: seq<string>, members: seq<Conn>, rest: nat)
    requires var h := Run(Fresh, events);
      && Possible(h, Publication(id, order, members, rest)) && id in h.gates && h.gates[id].work.Changing?
      && h.gates[id].work.change.Manages? && h.gates[id].progress.Good? && h.gates[id].conn in h.net
    ensures var h := Run(Fresh, events);
      AccessApplied(h, Step(h, Publication(id, order, members, rest)), id, h.gates[id], h.gates[id].progress.record, rest)
  {
    hide Run, Narrows, Sane, Possible, Step, AccessApplied;
    FreshIsSane();
    RunSane(Fresh, events);
    AccessAppliesAt(Run(Fresh, events), id, order, members, rest);
  }

  lemma AccessAppliesAt(h: Hub, id: string, order: seq<string>, members: seq<Conn>, rest: nat)
    requires Sane(h) && Possible(h, Publication(id, order, members, rest))
    requires id in h.gates && h.gates[id].work.Changing? && h.gates[id].work.change.Manages?
    requires h.gates[id].progress.Good? && h.gates[id].conn in h.net
    ensures AccessApplied(h, Step(h, Publication(id, order, members, rest)), id, h.gates[id], h.gates[id].progress.record, rest)
  {
    hide Sane, Possible, Step, AccessApplied, RoutesOf, Visits, ClientsListed, PublishAccess, DeviceOf;
    PublicationSteps(h, id, order, members, rest);
    var p, record := h.gates[id], h.gates[id].progress.record;
    var h1 := Recorded(h, id, order, members);
    var left := if SameSlot(h, id) && p.work.expected.ownershipId != record.ownershipId then [] else order;
    PublishedAccess(h, id, order, members, rest);
    hide Recorded;
    RecordedAnswers(h, id, order, members);
    ConfirmAnswers(h1, p.conn, Reply(AccessResult, "", rest), left, id);
    AccessSum(h, h1, id, Confirm(h1, p.conn, Reply(AccessResult, "", rest), left).0, rest);
    hide Confirm;
  }

  predicate OtherHands(h: Hub, id: string) {
    SameSlot(h, id) && h.gates[id].progress.Good? && h.gates[id].work.expected.ownershipId != h.gates[id].progress.record.ownershipId
  }

  /** What became of the router's maps before the result is sent. */
  ghost predicate AccessRecorded(h: Hub, h': Hub, id: string) {
    && id in h.gates && h.gates[id].progress.Good? && h.wire <= h'.wire && h'.gates == h.gates
    && (!SameSlot(h, id) ==> h' == h)
    && (SameSlot(h, id) ==>
          var record := h.gates[id].progress.record;
          && h'.devices == h.devices[id := h.devices[id].(record := record)] && h'.access == h.access[id := record.Bound()])
    && (SameSlot(h, id) && !OtherHands(h, id) ==>
          h' == h.(devices := h'.devices, access := h'.access))
    && (OtherHands(h, id) ==>
          && (forall c <- h'.clients :: c in h.clients && h'.clients[c] == h.clients[c] && h.clients[c].target != id)
          && (forall c <- h.clients :: h.clients[c].target != id ==> c in h'.clients)
          && (forall r <- h'.inflight :: r in h.inflight && h'.inflight[r] == h.inflight[r] && h.inflight[r].device != id)
          && (forall r <- h.inflight :: h.inflight[r].device == id ==>
                && r in h.issued
                && Told(h, h', h.issued[r].via, Frame(Kind.Invoke, r, "cancel", "", "", false, 0), "")
                && Told(h, h', h.issued[r].client, Frame(Kind.Error, h.issued[r].request, "", "result_unknown", "", false, 0), r)))
  }

  ghost predicate AccessApplied(h: Hub, h': Hub, id: string, p: Pending, record: Device, rest: nat) {
    && id !in h'.gates
    && exists h1: Hub, result: O.Admission ::
      && AccessRecorded(h, h1, id) && p.conn in h1.net
      && result == O.Enqueue(h1.net[p.conn], Frame(Kind.AccessResult, "", "", "", "", false, rest)).1
      && (result == O.Accepted ==>
            h' == Sent(h1, p.conn, Frame(Kind.AccessResult, "", "", "", "", false, rest), "").(gates := h.gates - {id}))
      && h1.wire + [Signal(p.conn, O.Send(Frame(Kind.AccessResult, "", "", "", "", false, rest)), "", result)] <= h'.wire
  }

  lemma AccessSum(h: Hub, h1: Hub, id: string, h2: Hub, rest: nat)
    requires id in h.gates && h.gates[id].conn in h1.net && AccessRecorded(h, h1, id)
    requires var c, f := h.gates[id].conn, Reply(AccessResult, "", rest);
      && (Takes(h1, c, f) ==> h2 == Sent(h1, c, f, ""))
      && h1.wire + [Signal(c, O.Send(f), "", O.Enqueue(h1.net[c], f).1)] <= h2.wire
      && h2.gates == h.gates
    ensures AccessApplied(h, Release(h2, id), id, h.gates[id], h.gates[id].progress.record, rest)
  {
    hide AccessRecorded;
    var c, f := h.gates[id].conn, Reply(AccessResult, "", rest);
    var result := O.Enqueue(h1.net[c], f).1;
    hide O.Enqueue;
  }

  /** The state after the invalidation, if any, and the new record, if the slot is still the same. */
  function Recorded(h: Hub, id: string, order: seq<string>, members: seq<Conn>): Hub
    requires id in h.gates && h.gates[id].work.Changing? && h.gates[id].progress.Good?
  {
    if !SameSlot(h, id) then h
    else
      var h0 := if OtherHands(h, id) then Invalidate(h, order, members) else h;
      if id in h0.devices then SetRecord(h0, id, h.gates[id].progress.record) else h0
  }

  lemma PublishedAccess(h: Hub, id: string, order: seq<string>, members: seq<Conn>, rest: nat)
    requires id in h.gates && h.gates[id].work.Changing? && h.gates[id].work.change.Manages? && h.gates[id].progress.Good?
    ensures var p, record := h.gates[id], h.gates[id].progress.record;
      var left := if SameSlot(h, id) && p.work.expected.ownershipId != record.ownershipId then [] else order;
      Publish(h, id, order, members, rest)
        == Confirm(Recorded(h, id, order, members), p.conn, Reply(AccessResult, "", rest), left).0
  {
    hide Invalidate, SetRecord, Confirm;
  }

  lemma RecordedAnswers(h: Hub, id: string, order: seq<string>, members: seq<Conn>)
    requires Sane(h) && id in h.gates && h.gates[id].work.Changing? && h.gates[id].progress.Good?
    requires Visits(order, RoutesOf(h, id)) && ClientsListed(h, members, id) && h.gates[id].conn in h.net
    ensures var h1 := Recorded(h, id, order, members); AccessRecorded(h, h1, id) && h.gates[id].conn in h1.net
  {
    hide Sane, Told, Visits, RoutesOf, ClientsListed, Device.Bound;
    if OtherHands(h, id) {
      InvalidatedAnswers(h, id, order, members);
      var h0 := Invalidate(h, order, members);
      hide Invalidate;
      RecordKeepsTold(h, h0, id, h.gates[id].progress.record);
    }
  }

  lemma RecordKeepsTold(h: Hub, h0: Hub, id: string, record: Device)
    requires id in h0.devices
    ensures forall c: Conn, f: Frame, r: string :: Told(h, h0, c, f, r) ==> Told(h, SetRecord(h0, id, record), c, f, r)
  {
  }

  lemma InvalidatedAnswers(h: Hub, id: string, order: seq<string>, members: seq<Conn>)
    requires Sane(h) && Visits(order, RoutesOf(h, id)) && ClientsListed(h, members, id)
    ensures var h' := Invalidate(h, order, members);
      && h'.devices == h.devices && h'.access == h.access && h'.gates == h.gates && h.wire <= h'.wire && h'.net.Keys == h.net.Keys
      && (forall c <- h'.clients :: c in h.clients && h'.clients[c] == h.clients[c] && h.clients[c].target != id)
      && (forall c <- h.clients :: h.clients[c].target != id ==> c in h'.clients)
      && (forall r <- h'.inflight :: r in h.inflight && h'.inflight[r] == h.inflight[r] && h.inflight[r].device != id)
      && (forall r <- h.inflight :: h.inflight[r].device == id ==>
            && r in h.issued && Told(h, h', h.issued[r].via, CancelFrame(r), "")
            && Told(h, h', h.issued[r].client, Err(h.issued[r].request, RESULT_UNKNOWN), r))
  {
    var h1 := InvalidateRoutes(h, order);
    InvalidatedAreGone(h, order);
    RemovedAreGone(h1, members);
    MembersAre(h, members, id);
    hide Sane, Told, InvalidateRoutes, RemoveClients, Visits, RoutesOf, ClientsListed;
    var h2 := RemoveClients(h1, members);
    forall r <- h.inflight | h.inflight[r].device == id
      ensures r in order && r in h.issued && Told(h, h2, h.issued[r].via, CancelFrame(r), "")
        && Told(h, h2, h.issued[r].client, Err(h.issued[r].request, RESULT_UNKNOWN), r)
    {
      InRoutes(h, 0, order, r);
      EndsAreConnected(h, r);
      ChangeOfHandsTellsBoth(h, order, r);
      ToldLater(h, h1, h2, h.issued[r].via, CancelFrame(r), "");
      ToldLater(h, h1, h2, h.issued[r].client, Err(h.issued[r].request, RESULT_UNKNOWN), r);
    }
  }

  lemma MembersAre(h: Hub, members: seq<Conn>, id: string)
    requires ClientsListed(h, members, id)
    ensures forall c <- h.clients :: c in members <==> h.clients[c].target == id
  {
    forall c <- h.clients ensures c in members <==> h.clients[c].target == id {
      assert c in members <==> c in set x <- members;
      assert c in ClientsOf(h, id) <==> h.clients[c].target == id;
    }
  }

  lemma {:induction false} InvalidatedAreGone(h: Hub, order: seq<string>)
    ensures var h' := InvalidateRoutes(h, order);
      && SameBeside(h, h')
      && forall r <- h'.inflight :: r in h.inflight && h'.inflight[r] == h.inflight[r] && r !in order
    decreases |order|
  {
    if order != [] {
      FirstInvalidated(h, order);
      InvalidatedOne(h, order[0]);
      InvalidatedAreGone(InvalidateOne(h, order[0]), order[1..]);
      assert order == [order[0]] + order[1..];
      hide InvalidateOne, InvalidateRoutes;
    }
  }

  lemma InvalidatedOne(h: Hub, r: string)
    ensures var h' := InvalidateOne(h, r);
      && SameBeside(h, h') && r !in h'.inflight
      && forall q <- h'.inflight :: q in h.inflight && h'.inflight[q] == h.inflight[q]
  {
    if r in h.inflight {
      var id := h.inflight[r].device;
      if id in h.devices && h.devices[id].conn.Some? {
        PutFields(h, h.devices[id].conn.value, O.Send(CancelFrame(r)), "");
      }
      FailedOne(CancelAtDevice(h, r), r, RESULT_UNKNOWN);
      hide Put, FailOne, O.Step;
    }
  }

  lemma {:induction false} RemovedAreGone(h: Hub, members: seq<Conn>)
    ensures var h' := RemoveClients(h, members);
      && h' == h.(net := h'.net, wire := h'.wire, clients := h'.clients) && h.wire <= h'.wire && h'.net.Keys == h.net.Keys
      && (forall c <- h'.clients :: c in h.clients && h'.clients[c] == h.clients[c] && c !in members)
      && (forall c <- h.clients :: c !in members ==> c in h'.clients)
    decreases |members|
  {
    if members != [] {
      var c := members[0];
      PutFields(h.(clients := h.clients - {c}), c, O.CloseIt, "");
      hide Put, O.Step;
      RemovedAreGone(RemoveClient(h, c), members[1..]);
      assert members == [c] + members[1..];
      FirstRemoved(h, members);
      hide RemoveClients;
    }
  }

  lemma FirstRemoved(h: Hub, members: seq<Conn>)
    requires members != []
    ensures RemoveClients(h, members) == RemoveClients(RemoveClient(h, members[0]), members[1..])
  {
  }

  // ----- Changes that fail -----------------------------------------------------------------------------

  /** The device behind the connection is offline without routes, the connection is sent the frame and closed. */
  ghost predicate Stopped(h: Hub, h': Hub, c: Conn, f: Frame) {
    && Told(h, h', c, f, "")
    && |h'.wire| > 0 && h'.wire[|h'.wire| - 1].conn == c && h'.wire[|h'.wire| - 1].event == O.CloseIt
    && (DeviceOf(h, c).Some? ==>
          var id := DeviceOf(h, c).value;
          && id in h'.devices && h'.devices[id].conn.None? && !h'.devices[id].online
          && (forall d <- h.devices :: d != id ==> d in h'.devices && h'.devices[d] == h.devices[d])
          && (forall r <- h'.inflight :: r in h.inflight && h'.inflight[r] == h.inflight[r] && h'.inflight[r].device != id))
    && (DeviceOf(h, c).None? ==> h'.devices == h.devices && h'.inflight == h.inflight)
    && h'.clients == h.clients && h'.access == h.access
  }

  lemma StoppedIs(h: Hub, c: Conn, f: Frame, order: seq<string>)
    requires c in h.net && (DeviceOf(h, c).Some? ==> Visits(order, RoutesOf(h, DeviceOf(h, c).value)))
    ensures Stopped(h, CloseConn(Tell(StopRouting(h, c, order), c, f), c), c, f)
  {
    StopAnswers(h, c, order);
    var h1 := StopRouting(h, c, order);
    hide StopRouting, RoutesOf, Visits;
    PutIsSent(h1, c, f, "");
    SentIsTold(h1, c, f);
    PutFields(Sent(h1, c, f, ""), c, O.CloseIt, "");
    hide Put, O.Step, O.Enqueue;
    var h3 := CloseConn(Sent(h1, c, f, ""), c);
    ToldLater(h1, Sent(h1, c, f, ""), h3, c, f, "");
    ToldEarlier(h, h1, h3, c, f, "");
    hide Told;
    assert h3.wire[|h3.wire| - 1].event == O.CloseIt;
  }

  lemma ReleasedStopped(h: Hub, h': Hub, c: Conn, f: Frame, id: string)
    requires Stopped(h, h', c, f)
    ensures Stopped(h, Release(h', id), c, f)
  {
    SameTold(h, h', Release(h', id), c, f, "");
    hide Told, DeviceOf;
  }

  /** Settings or a deletion that failed stop the device's routing before the error is sent. */
  lemma ChangeFails(events: seq<Event>, id: string, order: seq<string>, members: seq<Conn>, rest: nat)
    requires var h := Run(Fresh, events);
      && Possible(h, Publication(id, order, members, rest)) && id in h.gates && h.gates[id].work.Changing?
      && !h.gates[id].work.change.Manages? && h.gates[id].progress.Bad? && h.gates[id].conn in h.net
    ensures var h := Run(Fresh, events);
      Stopped(h, Step(h, Publication(id, order, members, rest)), h.gates[id].conn,
              Frame(Kind.Error, "", "", h.gates[id].progress.code, "", false, 0))
  {
    hide Run, Narrows, Sane, Possible, Step, Stopped;
    FreshIsSane();
    RunSane(Fresh, events);
    var h := Run(Fresh, events);
    hide RoutesOf, Visits, ClientsListed, StopRouting, DeviceOf;
    PublicationSteps(h, id, order, members, rest);
    HolderVisits(h, id, order);
    var c, f := h.gates[id].conn, Reply(Error, h.gates[id].progress.code, 0);
    StoppedIs(h, c, f, order);
    ReleasedStopped(h, CloseConn(Tell(StopRouting(h, c, order), c, f), c), c, f, id);
    hide Put;
  }

  lemma HolderVisits(h: Hub, id: string, order: seq<string>)
    requires Sane(h) && id in h.gates && h.gates[id].work.Changing? && Visits(order, RoutesOf(h, id))
    ensures var c := h.gates[id].conn;
      DeviceOf(h, c).Some? ==> DeviceOf(h, c).value == id && Visits(order, RoutesOf(h, DeviceOf(h, c).value))
  {
    GateMeans(h, id);
    hide Sane, RoutesOf, Visits, Stored;
  }

  /** An access request that failed for certain is only reported; one that may have taken effect stops the device's
      routing before its code is sent, unless it asked for the status. */
  lemma AccessFails(events: seq<Event>, id: string, order: seq<string>, members: seq<Conn>, rest: nat)
    requires var h := Run(Fresh, events);
      && Possible(h, Publication(id, order, members, rest)) && id in h.gates && h.gates[id].work.Changing?
      && h.gates[id].work.change.Manages? && h.gates[id].progress.Bad? && h.gates[id].conn in h.net
    ensures var h := Run(Fresh, events);
      AccessFailed(h, Step(h, Publication(id, order, members, rest)), id, h.gates[id])
  {
    hide Run, Narrows, Sane, Possible, Step, AccessFailed;
    FreshIsSane();
    RunSane(Fresh, events);
    AccessFailsAt(Run(Fresh, events), id, order, members, rest);
  }

  ghost predicate AccessFailed(h: Hub, h': Hub, id: string, p: Pending) {
    && p.work.Changing? && p.work.change.Manages? && p.progress.Bad? && p.conn in h.net
    && var code, change, f := p.progress.code, p.work.change, Frame(Kind.AccessResult, "", "", p.progress.code, "", false, 0);
       if code == "relay_error" && change.actor.Vouched? && change.request.action != "status" then Stopped(h, h', p.conn, f)
       else h' == Sent(h.(gates := h.gates - {id}), p.conn, f, "")
  }

  lemma AccessFailsAt(h: Hub, id: string, order: seq<string>, members: seq<Conn>, rest: nat)
    requires Sane(h) && Possible(h, Publication(id, order, members, rest)) && id in h.gates && h.gates[id].work.Changing?
    requires h.gates[id].work.change.Manages? && h.gates[id].progress.Bad? && h.gates[id].conn in h.net
    ensures AccessFailed(h, Step(h, Publication(id, order, members, rest)), id, h.gates[id])
  {
    hide Sane, Possible, Step, Stopped;
    hide RoutesOf, Visits, ClientsListed, StopRouting, DeviceOf;
    PublicationSteps(h, id, order, members, rest);
    HolderVisits(h, id, order);
    var c, f := h.gates[id].conn, Reply(AccessResult, h.gates[id].progress.code, 0);
    StoppedIs(h, c, f, order);
    ReleasedStopped(h, CloseConn(Tell(StopRouting(h, c, order), c, f), c), c, f, id);
    PutIsSent(h, c, f, "");
    hide Put;
  }

  /** A change that cannot get the gate stops the routing too. */
  lemma RejectionStops(h: Hub, c: Conn, code: string, order: seq<string>)
    requires Possible(h, Rejects(c, code, order)) && c in h.net
    ensures Stopped(h, Step(h, Rejects(c, code, order)), c, Frame(Kind.Error, "", "", code, "", false, 0))
  {
    VisitsAt(h, c, code, order);
    hide Possible, RoutesOf, Visits, StopRouting, Stopped, DeviceOf;
    StoppedIs(h, c, Reply(Error, code, 0), order);
    hide Put;
  }

  lemma VisitsAt(h: Hub, c: Conn, code: string, order: seq<string>)
    requires Possible(h, Rejects(c, code, order))
    ensures DeviceOf(h, c).Some? ==> Visits(order, RoutesOf(h, DeviceOf(h, c).value))
    ensures Step(h, Rejects(c, code, order)) == CloseConn(Tell(StopRouting(h, c, order), c, Reply(Error, code, 0)), c)
  {
    hide Put, StopRouting, RoutesOf, Visits;
  }
}
