/** Greetings, settings, revocation and access changes: taking the gate, the transaction, and the
    publication of its result. */
module HubIdentity {
  import opened Prelude
  import opened Devices
  import opened Frames
  import opened HubModel
  import opened HubRouting
  import opened HubRecords
  import opened HubWire
  import opened HubLease
  import opened HubSteps
  import opened HubCalls
  import A = Access
  import History = AccessHistory
  import O = OutboxModel

  // ----- Taking the gate -------------------------------------------------------------------------------

  /** Only store, gates, roles and the counter of incarnations differ. */
  predicate OnlyGates(h: Hub, h': Hub) {
    h' == h.(store := h'.store, gates := h'.gates, roles := h'.roles)
  }

  lemma GatesMove(h: Hub, h': Hub)
    requires Wired(h) && OnlyGates(h, h') && forall c <- h.roles :: c in h'.roles && h'.roles[c] == h.roles[c]
    ensures Wired(h') && Moves(h, h')
  {
    hide Wired, Quiet, Narrows, Discreet;
    FewerRoutesKeepWired(h, h');
    SilenceIsQuiet(h, h');
    SilenceIsDiscreet(h, h');
    RoutesNarrow(h, h');
  }

  lemma GreetMoves(h: Hub, c: Conn, role: Role, p: Pending)
    requires Sane(h) && c in h.net && c !in h.roles && role.id !in h.gates && p.conn == c && p.progress == Waiting
    requires if role.DeviceRole? then p.work.Registering? else p.work.Joining?
    ensures var h' := h.(roles := h.roles[c := role], gates := h.gates[role.id := p]); Sane(h') && Moves(h, h')
  {
    hide Routing, Records, Wired, Moves;
    var h' := h.(roles := h.roles[c := role], gates := h.gates[role.id := p]);
    GreetKeepsRouting(h, c, role, p);
    GateKeepsRecords(h, role.id, p);
    FrameKeepsRecords(h.(gates := h.gates[role.id := p]), h');
    GatesMove(h, h');
  }

  lemma HelloMoves(h: Hub, c: Conn, id: string, hash: string, inbound: bool, identity: Identity)
    requires Sane(h)
    ensures Sane(HelloDevice(h, c, id, hash, inbound)) && Moves(h, HelloDevice(h, c, id, hash, inbound))
    ensures Sane(HelloClient(h, c, id, hash, identity)) && Moves(h, HelloClient(h, c, id, hash, identity))
  {
    hide Sane, Moves;
    Stays(h);
    if c in h.net && c !in h.roles && id !in h.gates {
      GreetMoves(h, c, DeviceRole(id), Pending(c, Registering(hash, inbound), Waiting));
      var none := Authorization(Binding(NONE, NONE, NONE), NONE, {}, 0);
      GreetMoves(h, c, ClientRole(id), Pending(c, Joining(hash, identity, none), Waiting));
    }
  }

  lemma SamePeople(h: Hub, id: string, p: Pending)
    requires Routing(h)
    requires if id in h.gates then p.conn == h.gates[id].conn && p.work.Joining? == h.gates[id].work.Joining?
                                   && (p.work.Registering? ==> h.gates[id].work.Registering?)
             else p.work.Changing? && p.conn in h.roles && h.roles[p.conn] == DeviceRole(id)
    ensures GateRoles(h.gates[id := p], h.devices, h.roles) && Joiners(h.gates[id := p], h.clients)
  {
    hide Inverse, CallersHeld, DevicesHeld, IssuesHeld, Counted, SlotRoles, ClientRoles, Known;
  }

  /** The gate of `id` is taken, or its operation goes on. */
  lemma GateKeepsRouting(h: Hub, h': Hub, id: string, p: Pending)
    requires Routing(h) && h' == h.(store := h'.store, gates := h.gates[id := p])
    requires if id in h.gates then p.conn == h.gates[id].conn && p.work.Joining? == h.gates[id].work.Joining?
                                   && (p.work.Registering? ==> h.gates[id].work.Registering?)
             else p.work.Changing? && p.conn in h.roles && h.roles[p.conn] == DeviceRole(id)
    ensures Routing(h')
  {
    hide Routing;
    SamePeople(h, id, p);
    hide GateRoles, Joiners, IssueRoles;
    FrameKeepsRouting(h, h');
  }

  lemma BeginMoves(h: Hub, c: Conn, change: Change)
    requires Sane(h)
    ensures Sane(BeginChange(h, c, change)) && Moves(h, BeginChange(h, c, change))
  {
    hide Routing, Records, Wired, Moves;
    Stays(h);
    match DeviceOf(h, c)
    case None =>
    case Some(id) =>
      if id !in h.gates {
        var p := Pending(c, Changing(h.devices[id].serial, h.devices[id].record, change), Waiting);
        var h' := h.(gates := h.gates[id := p]);
        GateKeepsRouting(h, h', id, p);
        GateKeepsRecords(h, id, p);
        GatesMove(h, h');
      }
  }

  // ----- The transaction -------------------------------------------------------------------------------

  lemma CommitTouches(s: A.Store, r: A.Outcome<A.Store>, id: string, w: WriteOutcome)
    requires StoreOk(s) && (r.Ok? ==> Touches(s, r.value, id))
    ensures var (later, progress) := Commit(s, r, id, w);
      && Touches(s, later, id) && progress != Waiting && ProgressAgrees(progress, later, id)
      && (progress.Bad? && progress.code != RELAY_ERROR && (r.Ok? ==> Stored(r.value, id).Some?) ==> later == s)
      && (progress.Good? ==> r.Ok? && later == r.value)
      && (r.Ok? ==> later == s || later == r.value) && (r.Refused? ==> later == s)
  {
    SameStoreTouches(s, id);
    hide Touches, StoreOk, Stored;
  }

  /** The facts about one device that a transaction needs and leaves. */
  lemma PerformRegisterKeeps(h: Hub, id: string, secretHash: string, inbound: bool, w: WriteOutcome)
    requires Records(h) && id in h.gates && h.gates[id].work == Registering(secretHash, inbound)
    ensures var (s, progress) := PerformRegister(h.store, id, secretHash, inbound, w);
      Records(h.(store := s, gates := h.gates[id := h.gates[id].(progress := progress)]))
  {
    hide AccessAgrees, RecordsAgree, RoutesAgree, GatesAgree, StoreOk, Touches, Stored, A.RegisterDevice;
    var r := A.RegisterDevice(h.store, id, secretHash, inbound);
    if r.Ok? {
      RegisterTouches(h.store, id, secretHash, inbound);
    }
    CommitTouches(h.store, r, id, w);
    var (s, progress) := PerformRegister(h.store, id, secretHash, inbound, w);
    TouchKeepsRecords(h, id, h.gates[id].(progress := progress), s);
  }

  lemma PerformJoinKeeps(h: Hub, id: string, now: int, late: int, w: WriteOutcome)
    requires Records(h) && id in h.gates && h.gates[id].work.Joining?
    ensures var (work, progress) := PerformJoin(h.store, id, h.gates[id].work, now, late, w);
      Records(h.(gates := h.gates[id := h.gates[id].(work := work, progress := progress)]))
  {
    hide AccessAgrees, RecordsAgree, RoutesAgree, GatesAgree, StoreOk, Touches, Stored, A.ResolveFor;
    SameStoreTouches(h.store, id);
    var (work, progress) := PerformJoin(h.store, id, h.gates[id].work, now, late, w);
    var p := h.gates[id].(work := work, progress := progress);
    TouchKeepsRecords(h, id, p, h.store);
  }

  /** While a change waits for its transaction, a connected device has the stored record. */
  lemma WaitingMeans(h: Hub, id: string)
    requires Records(h) && id in h.gates && h.gates[id].work.Changing? && h.gates[id].progress == Waiting
    ensures id in h.devices ==> SlotAgrees(h.devices[id], h.gates[id])
    ensures id in h.devices && h.devices[id].conn.Some? ==>
      Stored(h.store, id) == Some(h.gates[id].work.expected)
  {
    hide StoreOk, AccessAgrees, RoutesAgree, Stored, AccessResultAgrees;
    assert GateAgrees(id, h.gates[id], h.devices, h.store);
  }

  lemma PerformSettingsTouches(s: A.Store, id: string, expected: Device, change: Change, w: WriteOutcome)
    requires StoreOk(s) && change.Settings?
    ensures var (later, progress) := PerformChange(s, id, expected, change, 0, 0, w);
      Touches(s, later, id) && progress != Waiting && ProgressAgrees(progress, later, id)
  {
    hide StoreOk, Touches, Stored, A.UpdateDevice;
    var requested := expected.(grantHash := change.grantHash, inbound := change.inbound);
    var r := A.UpdateDevice(s, id, requested);
    if r.Ok? {
      UpdateTouches(s, id, requested);
    }
    CommitTouches(s, r, id, w);
  }

  lemma PerformRevokeTouches(s: A.Store, id: string, expected: Device, w: WriteOutcome)
    requires StoreOk(s)
    ensures var (later, progress) := PerformChange(s, id, expected, Revoke, 0, 0, w);
      Touches(s, later, id) && progress != Waiting
  {
    hide StoreOk, Touches, Stored, A.DeleteDevice;
    SameStoreTouches(s, id);
    if A.DeleteDevice(s, id, expected.uid, expected.secretHash).Ok? {
      DeleteTouches(s, id, expected.uid, expected.secretHash);
    }
  }

  lemma PerformAccessTouches(s: A.Store, id: string, expected: Device, change: Change, now: int, late: int, w: WriteOutcome)
    requires StoreOk(s) && change.Manages?
    ensures var (later, progress) := PerformChange(s, id, expected, change, now, late, w);
      && Touches(s, later, id) && progress != Waiting && ProgressAgrees(progress, later, id)
      && (progress.Good? && Stored(s, id) == Some(expected) ==> progress.record.inbound == expected.inbound)
      && (progress.Bad? && !MayHaveCommitted(change, progress.code) ==> later == s)
  {
    hide StoreOk, Touches, Stored, A.Manage;
    SameStoreTouches(s, id);
    if change.actor.Vouched? {
      var r := A.Manage(s, id, expected, change.actor.identity, change.request, now, late);
      if r.Ok? {
        ManageTouches(s, id, expected, change.actor.identity, change.request, now, late);
      }
      CommitTouches(s, r, id, w);
    }
  }

  lemma ChangedGate(h: Hub, id: string, progress: Progress, later: A.Store)
    requires Records(h) && id in h.gates && h.gates[id].work.Changing? && h.gates[id].progress == Waiting
    requires progress != Waiting && Touches(h.store, later, id)
    requires !h.gates[id].work.change.Revoke? ==> ProgressAgrees(progress, later, id)
    requires id in h.devices && h.devices[id].conn.Some? ==>
      AccessResultAgrees(h.gates[id].(progress := progress), later, id)
    ensures Records(h.(store := later, gates := h.gates[id := h.gates[id].(progress := progress)]))
  {
    hide AccessAgrees, RecordsAgree, RoutesAgree, GatesAgree, StoreOk, Touches, ProgressAgrees, AccessResultAgrees;
    WaitingMeans(h, id);
    var p := h.gates[id].(progress := progress);
    assert id in h.devices ==> SlotAgrees(h.devices[id], p);
    TouchKeepsRecords(h, id, p, later);
  }

  lemma PerformChangeKeeps(h: Hub, id: string, now: int, late: int, w: WriteOutcome)
    requires Records(h) && id in h.gates && h.gates[id].work.Changing? && h.gates[id].progress == Waiting
    ensures var (s, progress) := PerformChange(h.store, id, h.gates[id].work.expected, h.gates[id].work.change, now, late, w);
      progress != Waiting && Records(h.(store := s, gates := h.gates[id := h.gates[id].(progress := progress)]))
  {
    hide AccessAgrees, RecordsAgree, RoutesAgree, GatesAgree, StoreOk, Touches, Stored, A.Manage, A.UpdateDevice, A.DeleteDevice;
    var expected, change := h.gates[id].work.expected, h.gates[id].work.change;
    WaitingMeans(h, id);
    match change {
      case Settings(_, _) => PerformSettingsTouches(h.store, id, expected, change, w);
      case Revoke => PerformRevokeTouches(h.store, id, expected, w);
      case Manages(_, _) => PerformAccessTouches(h.store, id, expected, change, now, late, w);
    }
    var (s, progress) := PerformChange(h.store, id, expected, change, now, late, w);
    hide PerformChange;
    ChangedGate(h, id, progress, s);
  }

  /** The state in which only the store and one gate differ. */
  function Gated(h: Hub, s: A.Store, id: string, p: Pending): Hub {
    h.(store := s, gates := h.gates[id := p])
  }

  /** What a transaction makes of the store and of its own gate. */
  function Performed(h: Hub, id: string, now: int, late: int, w: WriteOutcome): (A.Store, Pending)
    requires id in h.gates
  {
    var p := h.gates[id];
    match p.work
    case Registering(hash, inbound) =>
      var (s, progress) := PerformRegister(h.store, id, hash, inbound, w);
      (s, p.(progress := progress))
    case Joining(_, _, _) =>
      var (work, progress) := PerformJoin(h.store, id, p.work, now, late, w);
      (h.store, p.(work := work, progress := progress))
    case Changing(_, expected, change) =>
      var (s, progress) := PerformChange(h.store, id, expected, change, now, late, w);
      (s, p.(progress := progress))
  }

  lemma PerformIs(h: Hub, id: string, now: int, late: int, w: WriteOutcome)
    requires id in h.gates && h.gates[id].progress == Waiting
    ensures var (s, p) := Performed(h, id, now, late, w);
      && Perform(h, id, now, late, w) == Gated(h, s, id, p)
      && p.conn == h.gates[id].conn && p.work.Joining? == h.gates[id].work.Joining?
      && p.work.Registering? == h.gates[id].work.Registering?
  {
    hide PerformRegister, PerformJoin, PerformChange;
    if h.gates[id].work.Joining? {
      JoinStays(h.store, id, h.gates[id].work, now, late, w);
    }
  }

  lemma PerformFields(h: Hub, id: string, now: int, late: int, w: WriteOutcome)
    requires id in h.gates && h.gates[id].progress == Waiting
    ensures var h' := Perform(h, id, now, late, w);
      && id in h'.gates && h' == h.(store := h'.store, gates := h.gates[id := h'.gates[id]])
      && h'.gates[id].conn == h.gates[id].conn
      && h'.gates[id].work.Joining? == h.gates[id].work.Joining?
      && h'.gates[id].work.Registering? == h.gates[id].work.Registering?
  {
    PerformIs(h, id, now, late, w);
    hide Perform, Performed;
  }

  lemma PerformKeepsRecords(h: Hub, id: string, now: int, late: int, w: WriteOutcome)
    requires Records(h) && id in h.gates && h.gates[id].progress == Waiting
    ensures Records(Perform(h, id, now, late, w))
  {
    hide Records, PerformRegister, PerformJoin, PerformChange;
    match h.gates[id].work
    case Registering(secretHash, inbound) => PerformRegisterKeeps(h, id, secretHash, inbound, w);
    case Joining(_, _, _) => PerformJoinKeeps(h, id, now, late, w);
    case Changing(_, _, _) => PerformChangeKeeps(h, id, now, late, w);
  }

  lemma PerformMoves(h: Hub, id: string, now: int, late: int, w: WriteOutcome)
    requires Sane(h)
    ensures Sane(Perform(h, id, now, late, w)) && Moves(h, Perform(h, id, now, late, w))
  {
    if id in h.gates && h.gates[id].progress == Waiting {
      hide Routing, Records, Wired, Moves, Perform;
      var h' := Perform(h, id, now, late, w);
      PerformFields(h, id, now, late, w);
      PerformKeepsRecords(h, id, now, late, w);
      GatesMove(h, h');
      GateKeepsRouting(h, h', id, h'.gates[id]);
    } else {
      hide Sane, Moves;
      Stays(h);
    }
  }

  lemma JoinStays(s: A.Store, id: string, work: Work, now: int, late: int, w: WriteOutcome)
    requires work.Joining?
    ensures PerformJoin(s, id, work, now, late, w).0.Joining?
  {
    hide A.ResolveFor, Stored;
  }

  lemma AccountsMove(h: Hub, now: int, e: History.Event)
    requires Sane(h) && (e.CreatesPrincipal? || e.Issues? || e.Revokes? || e.Activates?)
    ensures var h' := h.(store := History.Step(History.World(h.store, now), e).store); Sane(h') && Moves(h, h')
  {
    hide Routing, Records, Wired, Moves, History.Step;
    var h' := h.(store := History.Step(History.World(h.store, now), e).store);
    AccountsKeepRecords(h, now, e);
    GatesMove(h, h');
    StoreKeepsRouting(h, h'.store);
  }

  lemma StoreKeepsRouting(h: Hub, s: A.Store)
    requires Routing(h)
    ensures Routing(h.(store := s))
  {
    assert GateRoles(h.gates, h.devices, h.roles) && Joiners(h.gates, h.clients);
    hide Routing, GateRoles, Joiners, IssueRoles;
    FrameKeepsRouting(h, h.(store := s));
  }

  lemma ConnectMoves(h: Hub)
    requires Sane(h)
    ensures Sane(NewConnection(h)) && Moves(h, NewConnection(h))
  {
    hide Routing, Records, Wired, Quiet, Narrows, Discreet;
    ConnectIsFresh(h);
    hide Known;
    var h' := NewConnection(h);
    ConnectKeepsRouting(h);
    FrameKeepsRecords(h, h');
    ConnectKeepsWired(h);
    ConnectNarrows(h);
    SilenceIsQuiet(h, h');
    SilenceIsDiscreet(h, h');
  }

  lemma ConnectIsFresh(h: Hub)
    requires Routing(h)
    ensures Known(h) && h.serial !in h.inboxes
  {
    hide Inverse, CallersHeld, DevicesHeld, IssuesHeld, Counted, SlotRoles, ClientRoles, GateRoles, Joiners, IssueRoles;
  }

  // ----- Publishing ------------------------------------------------------------------------------------

  /** The gate is given up. */
  lemma ReleaseMoves(h: Hub, id: string)
    requires Sane(h)
    requires id in h.devices && h.devices[id].conn.Some? ==> Stored(h.store, id) == Some(h.devices[id].record)
    ensures Sane(Release(h, id)) && Moves(h, Release(h, id))
  {
    hide Routing, Records, Wired, Moves, Stored;
    var h' := Release(h, id);
    ReleaseKeepsRecords(h, id);
    ReleaseKeepsRouting(h, id);
    GatesMove(h, h');
  }

  lemma ReleaseKeepsRouting(h: Hub, id: string)
    requires Routing(h)
    ensures Routing(Release(h, id))
  {
    assert GateRoles(h.gates - {id}, h.devices, h.roles) && Joiners(h.gates - {id}, h.clients);
    hide Routing, GateRoles, Joiners, IssueRoles;
    FrameKeepsRouting(h, Release(h, id));
  }

  /** Without a change in doubt a connected device has the stored record. */
  lemma NoDoubt(h: Hub, id: string)
    requires Records(h) && !InDoubt(h.gates, id)
    ensures id in h.devices && h.devices[id].conn.Some? ==> Stored(h.store, id) == Some(h.devices[id].record)
  {
    hide StoreOk, AccessAgrees, RoutesAgree, GatesAgree, Stored;
  }

  /** A failed greeting leaves only a closed connection. */
  lemma TurnedAndReleased(h: Hub, h1: Hub, id: string, c: Conn, code: string)
    requires Sane(h1) && Moves(h, h1) && OnlySends(h, h1) && Records(h) && !InDoubt(h.gates, id)
    ensures var h' := Release(Turned(h1, c, code), id); Sane(h') && Moves(h, h')
  {
    NoDoubt(h, id);
    hide Routing, Records, Wired, Moves, Turned, Stored, Release, InDoubt;
    TurnedMoves(h1, c, code);
    var h2 := Turned(h1, c, code);
    ReleaseMoves(h2, id);
    MovesOn(h, h1, h2);
    MovesOn(h, h2, Release(h2, id));
  }

  lemma NoRoutesWithout(h: Hub, id: string, c: Conn)
    requires Routing(h) && id in h.gates && h.gates[id].conn == c && h.gates[id].work.Registering?
    requires !(id in h.devices && h.devices[id].conn.Some? && h.devices[id].conn != Some(c))
    ensures RoutesOf(h, id) == {}
  {
    hide Inverse, CallersHeld, IssuesHeld, Counted, SlotRoles, ClientRoles, Joiners, IssueRoles, Known;
  }

  lemma ReplacedMoves(h: Hub, id: string, c: Conn, order: seq<string>)
    requires Sane(h) && id in h.gates && h.gates[id].conn == c && h.gates[id].work.Registering?
    requires RoutesOf(h, id) <= Members(order)
    ensures var h' := Replaced(h, id, c, order);
      && Sane(h') && Moves(h, h') && RoutesOf(h', id) == {}
      && h'.store == h.store && h'.gates == h.gates && h'.roles == h.roles
  {
    hide Routing, Records, Wired, Moves, FailDevice, Put, RoutesOf;
    if id in h.devices && h.devices[id].conn.Some? && h.devices[id].conn != Some(c) {
      var h1 := FailDevice(h, order, DEVICE_OFFLINE);
      FailDeviceMoves(h, order, DEVICE_OFFLINE);
      NoRoutesLeft(h, h1, order, id);
      var past := h.devices[id].conn.value;
      PutMoves(h1, past, O.CloseIt);
      SameRoutesOf(h1, CloseConn(h1, past), id);
      MovesOn(h, h1, CloseConn(h1, past));
    } else {
      Stays(h);
      NoRoutesWithout(h, id, c);
    }
  }

  lemma SameRoutesOf(h: Hub, h': Hub, id: string)
    requires h'.inflight == h.inflight
    ensures RoutesOf(h', id) == RoutesOf(h, id)
  {
  }

  lemma AttachMoves(h: Hub, id: string, c: Conn, record: Device)
    requires Sane(h) && RoutesOf(h, id) == {} && c in h.roles && h.roles[c] == DeviceRole(id)
    requires Stored(h.store, id) == Some(record)
    ensures var h' := Attach(h, id, c, record).(gates := h.gates - {id}); Sane(h') && Moves(h, h')
  {
    hide Routing, Records, Wired, Quiet, Narrows, Discreet, Stored, RoutesOf;
    var h1 := Attach(h, id, c, record);
    var h' := h1.(gates := h.gates - {id});
    AttachKeepsRouting(h, id, c, record);
    AttachKeepsRecords(h, id, c, record);
    FewerRoutesKeepWired(h, h');
    SilenceIsQuiet(h, h');
    SilenceIsDiscreet(h, h');
    AttachNarrows(h, id, c, record);
    RoutesNarrow(h1, h');
    NarrowsOn(h, h1, h');
  }

  lemma GateMeans(h: Hub, id: string)
    requires Sane(h) && id in h.gates
    ensures var p := h.gates[id];
      && p.conn in h.roles && h.roles[p.conn] == (if p.work.Joining? then ClientRole(id) else DeviceRole(id))
      && (p.progress.Good? && !(p.work.Changing? && p.work.change.Revoke?) ==> Stored(h.store, id) == Some(p.progress.record))
      && (!p.work.Changing? ==> !InDoubt(h.gates, id))
      && (p.work.Changing? && id in h.devices ==>
            SlotAgrees(h.devices[id], p) && (h.devices[id].conn.Some? ==> AccessResultAgrees(p, h.store, id)))
  {
    hide Inverse, CallersHeld, DevicesHeld, IssuesHeld, Counted, SlotRoles, ClientRoles, Joiners, IssueRoles, Known, Wired,
         StoreOk, AccessAgrees, RecordsAgree, RoutesAgree, Stored, SlotAgrees, AccessResultAgrees;
    assert GateAgrees(id, h.gates[id], h.devices, h.store);
  }

  /** The connection takes the slot, in place of an earlier one. */
  lemma TakeSlotMoves(h: Hub, id: string, order: seq<string>)
    requires Sane(h) && id in h.gates && h.gates[id].work.Registering? && h.gates[id].progress.Good?
    requires RoutesOf(h, id) <= Members(order)
    ensures var c := h.gates[id].conn;
      var h2 := Replaced(h, id, c, order);
      var h' := Attach(h2, id, c, h.gates[id].progress.record).(gates := h2.gates - {id});
      Sane(h') && Moves(h, h')
  {
    hide Sane, Moves, Replaced, Stored, Attach, RoutesOf, InDoubt;
    GateMeans(h, id);
    var c := h.gates[id].conn;
    ReplacedMoves(h, id, c, order);
    var h2 := Replaced(h, id, c, order);
    AttachMoves(h2, id, c, h.gates[id].progress.record);
    MovesOn(h, h2, Attach(h2, id, c, h.gates[id].progress.record).(gates := h2.gates - {id}));
  }

  lemma GateIsSure(h: Hub, id: string)
    requires Sane(h) && id in h.gates && !h.gates[id].work.Changing?
    ensures Records(h) && !InDoubt(h.gates, id)
  {
    hide Routing, Records, Wired;
  }

  lemma PublishDeviceMoves(h: Hub, id: string, order: seq<string>)
    requires Sane(h) && id in h.gates && h.gates[id].work.Registering? && h.gates[id].progress.Good?
    requires RoutesOf(h, id) <= Members(order)
    ensures var h' := Release(PublishDevice(h, id, h.gates[id].conn, h.gates[id].progress.record, order), id);
      Sane(h') && Moves(h, h')
  {
    hide Sane, Records, Moves, Put, Turned, FailDevice, RoutesOf, InDoubt, Gone;
    var c, record := h.gates[id].conn, h.gates[id].progress.record;
    GateIsSure(h, id);
    var e := O.Send(Reply(HelloOK, "", 0));
    var (h1, sent) := Put(h, c, e, "");
    PutMoves(h, c, e);
    if Gone(h, c) {
      Stays(h);
      TurnedAndReleased(h, h, id, c, RELAY_ERROR);
    } else if sent != O.Accepted {
      TurnedAndReleased(h, h1, id, c, RELAY_ERROR);
    } else {
      SameRoutesOf(h, h1, id);
      TakeSlotMoves(h1, id, order);
      var h2 := Replaced(h1, id, c, order);
      MovesOn(h, h1, Attach(h2, id, c, record).(gates := h2.gates - {id}));
    }
  }

  lemma JoinsCurrent(h: Hub, id: string, record: Device)
    requires Records(h) && id in h.gates && h.gates[id].work.Joining? && Stored(h.store, id) == Some(record)
    ensures id in h.devices && h.devices[id].conn.Some? ==>
      h.devices[id].record == record && id in h.access && h.access[id] == record.Bound()
  {
    NoDoubt(h, id);
    hide StoreOk, RecordsAgree, RoutesAgree, GatesAgree, Stored;
  }

  lemma JoinRecords(h: Hub, id: string, record: Device, h': Hub)
    requires Records(h) && id in h.gates && h.gates[id].work.Joining? && Stored(h.store, id) == Some(record)
    requires h' == h.(access := h.access[id := record.Bound()], clients := h'.clients, gates := h.gates - {id})
    ensures Records(h')
  {
    JoinsCurrent(h, id, record);
    hide Records, Stored, Device.Bound;
    var h1 := h.(access := h.access[id := record.Bound()]);
    JoinKeepsRecords(h, id, record);
    ReleaseKeepsRecords(h1, id);
    FrameKeepsRecords(Release(h1, id), h');
  }

  lemma JoinMoves(h: Hub, id: string, record: Device, client: Client)
    requires Sane(h) && id in h.gates && h.gates[id].work.Joining? && client.target == id
    requires Stored(h.store, id) == Some(record)
    ensures var h' := h.(access := h.access[id := record.Bound()], clients := h.clients[h.gates[id].conn := client],
                         gates := h.gates - {id});
      Sane(h') && Moves(h, h')
  {
    hide Routing, Records, Wired, Quiet, Narrows, Discreet, Stored, Device.Bound;
    var c := h.gates[id].conn;
    JoinsCurrent(h, id, record);
    var h1 := h.(access := h.access[id := record.Bound()], clients := h.clients[c := client]);
    var h' := h1.(gates := h.gates - {id});
    JoinKeepsRouting(h, id, client, h1.access);
    JoinRecords(h, id, record, h');
    FewerRoutesKeepWired(h, h');
    SilenceIsQuiet(h, h');
    SilenceIsDiscreet(h, h');
    JoinNarrows(h, c, client, id, record.Bound());
    RoutesNarrow(h1, h');
    NarrowsOn(h, h1, h');
  }

  lemma PublishClientMoves(h: Hub, id: string)
    requires Sane(h) && id in h.gates && h.gates[id].work.Joining? && h.gates[id].progress.Good?
    ensures var h' := Release(PublishClient(h, id, h.gates[id], h.gates[id].progress.record), id);
      Sane(h') && Moves(h, h')
  {
    hide Sane, Records, Moves, Put, Turned, Stored, InDoubt, Device.Bound, Gone;
    var p, record := h.gates[id], h.gates[id].progress.record;
    var c := p.conn;
    GateIsSure(h, id);
    GateMeans(h, id);
    Stays(h);
    TurnedAndReleased(h, h, id, c, RELAY_ERROR);
    TurnedAndReleased(h, h, id, c, UNAUTHORIZED);
    var e := O.Send(Reply(HelloOK, "", 0));
    PutMoves(h, c, e);
    var (h1, sent) := Put(h, c, e, "");
    if sent != O.Accepted {
      TurnedAndReleased(h, h1, id, c, RELAY_ERROR);
    } else {
      var decision := if record.ownershipId == NONE
                      then Authorization(record.Bound(), NONE, OPERATIONS, 0) else p.work.authorization;
      var client := Client(id, record.Bound(), p.work.identity, decision);
      JoinMoves(h1, id, record, client);
      MovesOn(h, h1, h1.(access := h1.access[id := record.Bound()], clients := h1.clients[c := client], gates := h1.gates - {id}));
    }
  }
}
