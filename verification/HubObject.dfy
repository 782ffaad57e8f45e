/** The router as an object: the handlers of internal/relay/hub*.go updating the router's maps in place,
    each proved to do exactly what its function on states says. The loops run over Go maps, whose order
    is arbitrary; the order a loop happened to take is returned as a ghost value. */
module HubObject {
  import opened Prelude
  import opened Devices
  import opened Frames
  import opened HubModel
  import A = Access
  import M = AdmissionModel
  import O = OutboxModel
  import I = InboxModel

  lemma {:induction false} FailDeviceMore(h: Hub, order: seq<string>, r: string, code: string)
    ensures FailDevice(h, order + [r], code) == FailOne(FailDevice(h, order, code), r, code)
    decreases |order|
  {
    hide FailOne;
    if order == [] {
      assert [r][1..] == [];
    } else {
      assert (order + [r])[1..] == order[1..] + [r];
      FailDeviceMore(FailOne(h, order[0], code), order[1..], r, code);
    }
  }

  lemma {:induction false} CancelClientMore(h: Hub, order: seq<string>, r: string)
    ensures CancelClient(h, order + [r]) == CancelOne(CancelClient(h, order), r)
    decreases |order|
  {
    hide CancelOne;
    if order == [] {
      assert [r][1..] == [];
    } else {
      assert (order + [r])[1..] == order[1..] + [r];
      CancelClientMore(CancelOne(h, order[0]), order[1..], r);
    }
  }

  lemma {:induction false} InvalidateMore(h: Hub, order: seq<string>, r: string)
    ensures InvalidateRoutes(h, order + [r]) == InvalidateOne(InvalidateRoutes(h, order), r)
    decreases |order|
  {
    hide InvalidateOne;
    if order == [] {
      assert [r][1..] == [];
    } else {
      assert (order + [r])[1..] == order[1..] + [r];
      InvalidateMore(InvalidateOne(h, order[0]), order[1..], r);
    }
  }

  lemma {:induction false} RemoveMore(h: Hub, order: seq<Conn>, c: Conn)
    ensures RemoveClients(h, order + [c]) == RemoveClient(RemoveClients(h, order), c)
    decreases |order|
  {
    hide RemoveClient;
    if order == [] {
      assert [c][1..] == [];
    } else {
      assert (order + [c])[1..] == order[1..] + [c];
      RemoveMore(RemoveClient(h, order[0]), order[1..], c);
    }
  }

  class Router {
    var devices: map<string, Slot>
    var access: map<string, Binding>
    var clients: map<Conn, Client>
    var inflight: map<string, Route>
    var requests: map<RequestKey, string>
    var active: M.Active
    var net: map<Conn, O.Outbox>
    var inboxes: map<Conn, I.Inbox>
    var deaf: set<Conn>
    var store: A.Store
    var gates: map<string, Pending>
    var renewals: set<Renewal>
    var serial: nat
    var roles: map<Conn, Role>
    ghost var issued: map<string, Issue>
    ghost var wire: seq<Signal>
    ghost var heard: seq<Heard>
    ghost var granted: seq<Grant>

    ghost function Now(): Hub
      reads this
    {
      Hub(devices, access, clients, inflight, requests, active, net, inboxes, deaf, store, gates, renewals, serial,
          roles, issued, wire, heard, granted)
    }

    constructor ()
      ensures Now() == Fresh
    {
      devices, access, clients, inflight, requests, active := map[], map[], map[], map[], map[], map[];
      net, inboxes, deaf, store, gates := map[], map[], {}, Fresh.store, map[];
      renewals, serial, roles, issued, wire, heard, granted := {}, 0, map[], map[], [], [], [];
    }

    // ----- Sending -----------------------------------------------------------------------------------

    method Enqueue(c: Conn, f: Frame, ghost route: string) returns (result: O.Admission)
      modifies this`net, this`wire
      ensures (Now(), result) == Put(old(Now()), c, O.Send(f), route)
    {
      hide O.Enqueue;
      if c !in net {
        return O.Closed;
      }
      var (b, answer) := O.Enqueue(net[c], f);
      net := net[c := b];
      wire := wire + [Signal(c, O.Send(f), route, answer)];
      return answer;
    }

    method CloseConnection(c: Conn)
      modifies this`net, this`wire
      ensures Now() == CloseConn(old(Now()), c)
    {
      if c in net {
        net := net[c := O.Close(net[c])];
        wire := wire + [Signal(c, O.CloseIt, "", O.Accepted)];
      }
    }

    // ----- Routes ------------------------------------------------------------------------------------

    method FinishInvocation(r: string)
      modifies this`requests, this`active, this`inflight
      ensures Now() == Finish(old(Now()), r)
    {
      if r in inflight {
        var task := inflight[r];
        requests := requests - {RequestKey(task.client, task.request)};
        active := M.GiveBack(active, task.binding.access.deviceUid);
        inflight := inflight - {r};
      }
    }

    method CancelOnDevice(r: string)
      requires r in inflight
      modifies this`net, this`wire
      ensures Now() == CancelAtDevice(old(Now()), r)
    {
      var id := inflight[r].device;
      if id in devices && devices[id].conn.Some? {
        var _ := Enqueue(devices[id].conn.value, CancelFrame(r), "");
      }
    }

    method FailDeviceLocked(id: string, code: string) returns (ghost order: seq<string>)
      modifies this`net, this`wire, this`requests, this`active, this`inflight
      ensures Now() == FailDevice(old(Now()), order, code) && Visits(order, RoutesOf(old(Now()), id))
    {
      hide FailDevice, Finish;
      var rest := inflight.Keys;
      order := [];
      assert FailDevice(Now(), [], code) == Now() by { EmptyLoops(Now(), code); }
      while rest != {}
        invariant Now() == FailDevice(old(Now()), order, code)
        invariant rest <= old(inflight).Keys
        invariant forall r <- rest :: r in inflight && inflight[r] == old(inflight)[r]
        invariant forall r <- old(inflight) :: r in order <==> r !in rest && old(inflight)[r].device == id
        invariant forall r <- order :: r in old(inflight)
        invariant forall r <- inflight :: r in old(inflight)
      {
        var r :| r in rest;
        rest := rest - {r};
        if inflight[r].device == id {
          ghost var before := Now();
          FailDeviceMore(old(Now()), order, r, code);
          var _ := Enqueue(inflight[r].client, Err(inflight[r].request, code), r);
          FinishLeavesOthers(Now(), r);
          FinishInvocation(r);
          order := order + [r];
          assert Now() == FailOne(before, r, code);
        }
      }
      assert forall r :: r in order <==> r in RoutesOf(old(Now()), id);
    }

    method CancelClientLocked(from: Conn) returns (ghost order: seq<string>)
      modifies this`net, this`wire, this`requests, this`active, this`inflight
      ensures Now() == CancelClient(old(Now()), order) && Visits(order, RoutesFor(old(Now()), from))
    {
      hide CancelClient, Finish, CancelAtDevice;
      var rest := inflight.Keys;
      order := [];
      assert CancelClient(Now(), []) == Now() by { EmptyLoops(Now(), ""); }
      while rest != {}
        invariant Now() == CancelClient(old(Now()), order)
        invariant rest <= old(inflight).Keys
        invariant forall r <- rest :: r in inflight && inflight[r] == old(inflight)[r]
        invariant forall r <- old(inflight) :: r in order <==> r !in rest && old(inflight)[r].client == from
        invariant forall r <- order :: r in old(inflight)
        invariant forall r <- inflight :: r in old(inflight)
      {
        var r :| r in rest;
        rest := rest - {r};
        if inflight[r].client != from {
          continue;
        }
        ghost var before := Now();
        CancelClientMore(old(Now()), order, r);
        CancelOnDevice(r);
        FinishLeavesOthers(Now(), r);
        FinishInvocation(r);
        order := order + [r];
        assert Now() == CancelOne(before, r);
      }
      assert forall r :: r in order <==> r in RoutesFor(old(Now()), from);
    }

    /** Ownership changed: routes end with an unknown result, and the device's callers are dropped. */
    method InvalidateOwnershipLocked(id: string) returns (ghost order: seq<string>, ghost members: seq<Conn>)
      modifies this`net, this`wire, this`requests, this`active, this`inflight, this`clients
      ensures Now() == Invalidate(old(Now()), order, members)
      ensures Visits(order, RoutesOf(old(Now()), id)) && ClientsListed(old(Now()), members, id)
    {
      order := InvalidateCalls(id);
      members := DropClients(id);
    }

    method InvalidateCalls(id: string) returns (ghost order: seq<string>)
      modifies this`net, this`wire, this`requests, this`active, this`inflight
      ensures Now() == InvalidateRoutes(old(Now()), order) && Visits(order, RoutesOf(old(Now()), id))
    {
      hide InvalidateRoutes, Finish, CancelAtDevice;
      var rest := inflight.Keys;
      order := [];
      assert InvalidateRoutes(Now(), []) == Now() by { EmptyLoops(Now(), ""); }
      while rest != {}
        invariant Now() == InvalidateRoutes(old(Now()), order)
        invariant rest <= old(inflight).Keys
        invariant forall r <- rest :: r in inflight && inflight[r] == old(inflight)[r]
        invariant forall r <- old(inflight) :: r in order <==> r !in rest && old(inflight)[r].device == id
        invariant forall r <- order :: r in old(inflight)
        invariant forall r <- inflight :: r in old(inflight)
      {
        var r :| r in rest;
        rest := rest - {r};
        if inflight[r].device != id {
          continue;
        }
        ghost var before := Now();
        InvalidateMore(old(Now()), order, r);
        CancelOnDevice(r);
        var _ := Enqueue(inflight[r].client, Err(inflight[r].request, RESULT_UNKNOWN), r);
        FinishLeavesOthers(Now(), r);
        FinishInvocation(r);
        order := order + [r];
        assert Now() == InvalidateOne(before, r);
      }
      assert forall r :: r in order <==> r in RoutesOf(old(Now()), id);
    }

    method LoseClient(c: Conn)
      modifies this`net, this`wire, this`clients
      ensures Now() == RemoveClient(old(Now()), c) && clients == old(clients) - {c}
    {
      hide CloseConn;
      clients := clients - {c};
      CloseConnection(c);
    }

    method DropClients(id: string) returns (ghost members: seq<Conn>)
      modifies this`net, this`wire, this`clients
      ensures Now() == RemoveClients(old(Now()), members) && ClientsListed(old(Now()), members, id)
    {
      hide RemoveClients, RemoveClient;
      var rest := clients.Keys;
      members := [];
      assert RemoveClients(Now(), []) == Now() by { EmptyLoops(Now(), ""); }
      while rest != {}
        invariant Now() == RemoveClients(old(Now()), members)
        invariant rest <= old(clients).Keys
        invariant forall c <- rest :: c in clients && clients[c] == old(clients)[c]
        invariant forall c <- old(clients) :: c in members <==> c !in rest && old(clients)[c].target == id
        invariant forall c <- members :: c in old(clients)
      {
        var c :| c in rest;
        rest := rest - {c};
        if clients[c].target == id {
          RemoveMore(old(Now()), members, c);
          LoseClient(c);
          members := members + [c];
        }
      }
      assert forall c :: c in members <==> c in ClientsOf(old(Now()), id);
    }

    /** Foreground executions of the device keep their routes but lose their renewals. */
    method RevokeForegroundRoutesLocked(id: string)
      modifies this`inflight
      ensures Now() == RevokeForeground(old(Now()), id)
    {
      var rest := inflight.Keys;
      while rest != {}
        invariant rest <= inflight.Keys && inflight.Keys == old(inflight).Keys
        invariant forall r <- rest :: inflight[r] == old(inflight)[r]
        invariant forall r <- inflight.Keys - rest :: inflight[r] == RevokeForeground(old(Now()), id).inflight[r]
      {
        var r :| r in rest;
        if inflight[r].device == id && inflight[r].operation == EXEC {
          inflight := inflight[r := inflight[r].(cancelled := true)];
        }
        rest := rest - {r};
      }
      assert inflight == RevokeForeground(old(Now()), id).inflight;
    }

    // ----- Requests ------------------------------------------------------------------------------------

    method HandleCancel(from: Conn, exec: string)
      modifies this`net, this`wire, this`inflight
      ensures Now() == Cancel(old(Now()), from, exec)
    {
      hide Put, CancelAtDevice;
      var key := RequestKey(from, exec);
      if key !in requests || requests[key] !in inflight || inflight[requests[key]].client != from {
        var _ := Enqueue(from, Err(exec, UNKNOWN_EXEC), "");
        return;
      }
      var r := requests[key];
      inflight := inflight[r := inflight[r].(cancelled := true)];
      CancelOnDevice(r);
    }

    /** The part of an invoke under the routing lock; `verdict` is the access check made before it, `drawn`
        the fresh route ID, `proof` whether a delegation could be issued, `size` the payload's. */
    method InvokeLocked(from: Conn, target: string, exec: string, op: string, verdict: string, drawn: string,
                        proof: bool, size: nat) returns (ghost order: seq<string>)
      modifies this
      ensures Now() == HandleInvoke(old(Now()), from, target, exec, op, Env(verdict, drawn, proof, size, order))
    {
      hide Put, Cancel, Dispatch;
      order := [];
      if op == CANCEL {
        HandleCancel(from, exec);
        return;
      }
      if verdict != "" {
        var _ := Enqueue(from, Nack(exec, verdict), "");
        return;
      }
      var code := RefusalCode(from, target, exec);
      if code != "" {
        var _ := Enqueue(from, Nack(exec, code), "");
        return;
      }
      if from !in net || net[from].cancelled {
        return;
      }
      if drawn in inflight {
        var _ := Enqueue(from, Nack(exec, RELAY_ERROR), "");
        return;
      }
      if op == HANDOFF_SUBMIT && !proof {
        var _ := Enqueue(from, Nack(exec, RELAY_ERROR), "");
        return;
      }
      order := DispatchLocked(from, target, exec, op, drawn, size);
      DispatchIgnores(old(Now()), from, target, exec, op, Env("", drawn, false, size, order), Env(verdict, drawn, proof, size, order));
    }

    method RefusalCode(from: Conn, target: string, exec: string) returns (code: string)
      ensures code == Refusal(Now(), from, target, exec)
    {
      if from !in clients {
        return UNAUTHORIZED;
      }
      var binding := clients[from];
      if binding.target != target || target !in access || !binding.access.Matches(access[target]) {
        return UNAUTHORIZED;
      }
      if exec == "" || RequestKey(from, exec) in requests {
        return AGENT_ERROR;
      }
      if target !in devices {
        return DEVICE_OFFLINE;
      }
      var device := devices[target];
      if !device.online || !device.ready || device.conn.None? || device.record.uid != binding.access.deviceUid {
        return DEVICE_OFFLINE;
      }
      if !device.record.inbound {
        return INBOUND_DISABLED;
      }
      match M.Acquire(active, LIMIT, binding.access.deviceUid).1 {
        case Granted => return "";
        case LimitReached => return QUOTA_EXCEEDED;
        case InvalidRequest => return RELAY_ERROR;
      }
    }

    method DispatchLocked(from: Conn, target: string, exec: string, op: string, r: string, size: nat)
      returns (ghost order: seq<string>)
      requires from in clients && target in devices && devices[target].conn.Some?
      modifies this
      ensures Now() == Dispatch(old(Now()), from, target, exec, op, Env("", r, false, size, order))
    {
      hide Put, FailDevice, Offline;
      order := [];
      var device := devices[target].conn.value;
      var binding := clients[from];
      requests := requests[RequestKey(from, exec) := r];
      inflight := inflight[r := Route(exec, target, from, 0, false, binding, op, false)];
      active := M.Acquire(active, LIMIT, binding.access.deviceUid).0;
      issued := issued[r := Issue(from, exec, device)];
      assert Now() == AddRoute(old(Now()), from, target, exec, op, r);
      var sent := Enqueue(device, Frame(Frames.Invoke, r, op, "", "", false, size), "");
      if sent != O.Accepted {
        order := FailDeviceLocked(target, DEVICE_OFFLINE);
        CloseConnection(device);
        TakeOffline(target);
      }
    }

    method TakeOffline(id: string)
      modifies this`devices
      ensures Now() == if id in old(devices) then Offline(old(Now()), id) else old(Now())
    {
      if id in devices {
        devices := devices[id := devices[id].(conn := None, online := false)];
      }
    }

    method ForwardToClient(from: Conn, f: Frame) returns (ghost order: seq<string>)
      modifies this
      ensures Now() == Forward(old(Now()), from, f, order)
    {
      hide Put, Deliver;
      order := [];
      var r := f.exec;
      if r !in inflight {
        return;
      }
      var route := inflight[r];
      if route.device !in devices || devices[route.device].conn != Some(from) {
        return;
      }
      if IsOutput(f) {
        if |f.data| > MAX_FRAME_BYTES {
          inflight := inflight[r := route.(trunc := true)];
          return;
        }
        if |f.data| > MAX_EXEC_OUTPUT_BYTES - route.outBytes {
          inflight := inflight[r := route.(outBytes := MAX_EXEC_OUTPUT_BYTES, trunc := true)];
          return;
        }
        route := route.(outBytes := route.outBytes + |f.data|);
      }
      inflight := inflight[r := route];
      var out := f.(exec := route.request);
      if route.trunc && f.kind == Exit {
        out := out.(truncated := true);
      }
      order := DeliverToClient(r, out);
    }

    method DeliverToClient(r: string, out: Frame) returns (ghost order: seq<string>)
      requires r in inflight
      modifies this
      ensures Now() == Deliver(old(Now()), r, out, order)
    {
      hide Put, Finish, CancelClient, RemoveClient;
      order := [];
      var route := inflight[r];
      var sent := Enqueue(route.client, out, r);
      if sent == O.Dropped {
        inflight := inflight[r := route.(trunc := true)];
        return;
      }
      if sent == O.Closed {
        order := CancelClientLocked(route.client);
        LoseClient(route.client);
        return;
      }
      if IsTerminal(out) {
        FinishInvocation(r);
      }
    }

    method NoteDroppedOutput(from: Conn, f: Frame)
      modifies this`inflight
      ensures Now() == NoteDropped(old(Now()), from, f)
    {
      if f.exec in inflight {
        var route := inflight[f.exec];
        if route.device in devices && devices[route.device].conn == Some(from) {
          inflight := inflight[f.exec := route.(trunc := true)];
        }
      }
    }

    // ----- Connections that end --------------------------------------------------------------------------

    method StopDeviceRoutingLocked(from: Conn) returns (ghost order: seq<string>)
      modifies this
      ensures Now() == StopRouting(old(Now()), from, order) && Visits(order, RoutesAt(old(Now()), from))
    {
      hide FailDevice;
      order := [];
      if from in roles && roles[from].DeviceRole? && roles[from].id in devices && devices[roles[from].id].conn == Some(from) {
        var id := roles[from].id;
        order := FailDeviceLocked(id, DEVICE_OFFLINE);
        TakeOffline(id);
      }
    }

    method DropConnection(from: Conn) returns (ghost order: seq<string>)
      modifies this
      ensures Now() == HubModel.Drop(old(Now()), from, order)
    {
      hide StopRouting, CancelClient, RoutesAt, RoutesFor, Visits;
      order := [];
      if from !in roles {
        return;
      }
      if roles[from].DeviceRole? {
        order := StopDeviceRoutingLocked(from);
        return;
      }
      order := DropCaller(from);
    }

    method DropCaller(from: Conn) returns (ghost order: seq<string>)
      modifies this`net, this`wire, this`requests, this`active, this`inflight, this`clients
      ensures Now() == (var h := CancelClient(old(Now()), order); h.(clients := h.clients - {from}))
      ensures Visits(order, RoutesFor(old(Now()), from))
    {
      hide CancelClient, RoutesFor, Visits;
      order := CancelClientLocked(from);
      clients := clients - {from};
    }

    method RejectIdentity(from: Conn, code: string) returns (ghost order: seq<string>)
      modifies this
      ensures Now() == Reject(old(Now()), from, code, order)
    {
      hide StopRouting, Put;
      order := StopDeviceRoutingLocked(from);
      var _ := Enqueue(from, Reply(Error, code, 0), "");
      CloseConnection(from);
    }

    // ----- Renewals --------------------------------------------------------------------------------------

    method LiveExecutionRouteLocked(from: Conn, r: string) returns (live: bool)
      ensures live == Live(Now(), from, r)
    {
      if r !in inflight {
        return false;
      }
      var route := inflight[r];
      if route.cancelled || route.operation != EXEC || route.client !in net || net[route.client].cancelled
         || from !in net || net[from].cancelled {
        return false;
      }
      if route.client !in clients || route.device !in devices || route.device !in access {
        return false;
      }
      var device := devices[route.device];
      return device.ready && device.conn == Some(from) && device.record.inbound
        && route.binding.access.Matches(device.record.Bound()) && route.binding.access.Matches(access[route.device]);
    }

    /** Before the authority is asked. */
    method BeginRenewal(from: Conn, r: string)
      modifies this`net, this`wire, this`renewals
      ensures Now() == RenewBegin(old(Now()), from, r)
    {
      hide Live, Put;
      var live := LiveExecutionRouteLocked(from, r);
      if !live {
        var _ := Enqueue(from, Reply(ExecutionLease, UNAUTHORIZED, 0), "");
        return;
      }
      renewals := renewals + {Renewal(from, r)};
    }

    /** After it answered: what happened to the route meanwhile wins. */
    method CommitRenewal(from: Conn, r: string, ms: int, code: string, late: bool)
      modifies this`net, this`wire, this`renewals, this`granted
      ensures Now() == RenewCommit(old(Now()), from, r, ms, code, late)
    {
      hide Live, Put;
      if Renewal(from, r) !in renewals {
        return;
      }
      renewals := renewals - {Renewal(from, r)};
      var answer := code;
      var live := LiveExecutionRouteLocked(from, r);
      if !live {
        answer := UNAUTHORIZED;
      } else if late {
        answer := RELAY_ERROR;
      }
      if answer == "" {
        granted := granted + [Grant(from, r, ms)];
      }
      var _ := Enqueue(from, Reply(ExecutionLease, answer, 0), "");
    }

    // ----- Publication -----------------------------------------------------------------------------------

    method ConfirmChange(from: Conn, f: Frame) returns (ok: bool, ghost order: seq<string>)
      modifies this
      ensures (Now(), ok) == Confirm(old(Now()), from, f, order)
      ensures RoutesAt(old(Now()), from) == {} ==> order == []
    {
      hide StopRouting, Put, RoutesAt, Visits;
      order := [];
      SendingKeepsPlaces(Now(), from, O.Send(f), "", from);
      var sent := Enqueue(from, f, "");
      if sent != O.Accepted {
        ghost var places := RoutesAt(Now(), from);
        order := StopDeviceRoutingLocked(from);
        if order != [] {
          SomethingVisited(order, places);
        }
        CloseConnection(from);
        return false, order;
      }
      return true, order;
    }

    /** Settings were committed for the device of connection `p.conn`. */
    method ApplySettings(id: string, p: Pending, record: Device) returns (ghost order: seq<string>)
      requires p.work.Changing?
      modifies this
      ensures Now() == PublishSettings(old(Now()), id, p, record, order)
    {
      hide Confirm, RevokeForeground;
      order := [];
      if id !in devices || devices[id].serial != p.work.serial {
        return;
      }
      var wasInbound := devices[id].record.inbound;
      devices := devices[id := devices[id].(record := record)];
      access := access[id := record.Bound()];
      if wasInbound && !record.inbound {
        RevokeForegroundRoutesLocked(id);
      }
      var ok;
      ok, order := ConfirmChange(p.conn, Reply(SettingsResult, "", 0));
      if ok && id in devices {
        devices := devices[id := devices[id].(ready := true)];
      }
    }

    /** A device has been registered in the store; its connection takes the slot. */
    method PublishRegistration(id: string, c: Conn, record: Device) returns (ghost order: seq<string>)
      modifies this
      ensures Now() == PublishDevice(old(Now()), id, c, record, order)
    {
      hide Put, Replaced, Turned;
      order := [];
      if c !in net || net[c].cancelled {
        RejectGreeting(c, RELAY_ERROR);
        return;
      }
      var sent := Enqueue(c, Reply(HelloOK, "", 0), "");
      if sent != O.Accepted {
        RejectGreeting(c, RELAY_ERROR);
        return;
      }
      order := ReplaceConnection(id, c);
      access := access[id := record.Bound()];
      devices := devices[id := Slot(serial, Some(c), record, true, false)];
      serial := serial + 1;
    }

    method ReplaceConnection(id: string, c: Conn) returns (ghost order: seq<string>)
      modifies this`net, this`wire, this`requests, this`active, this`inflight
      ensures Now() == Replaced(old(Now()), id, c, order)
    {
      hide FailDevice, CloseConn;
      order := [];
      if id in devices && devices[id].conn.Some? && devices[id].conn != Some(c) {
        var past := devices[id].conn.value;
        order := FailDeviceLocked(id, DEVICE_OFFLINE);
        CloseConnection(past);
      }
    }

    method RejectGreeting(c: Conn, code: string)
      modifies this`net, this`wire
      ensures Now() == Turned(old(Now()), c, code)
    {
      hide Put;
      var _ := Enqueue(c, Reply(Error, code, 0), "");
      CloseConnection(c);
    }

    /** A caller was let in by the store; its connection is registered for the device. */
    method PublishCaller(id: string, p: Pending, record: Device)
      requires p.work.Joining?
      modifies this
      ensures Now() == PublishClient(old(Now()), id, p, record)
    {
      hide Put, Turned, Device.Bound, Reply;
      var c := p.conn;
      if c !in net || net[c].cancelled {
        RejectGreeting(c, RELAY_ERROR);
        return;
      }
      var decision := p.work.authorization;
      if record.ownershipId == NONE {
        if record.grantHash == "" || record.grantHash != p.work.grantHash || record.uid == NONE || record.grantId == NONE {
          RejectGreeting(c, UNAUTHORIZED);
          return;
        }
        decision := Authorization(record.Bound(), NONE, OPERATIONS, 0);
      }
      GreetCaller(id, c, record, p.work.identity, decision);
    }

    /** The greeting is queued before the caller is registered. */
    method GreetCaller(id: string, c: Conn, record: Device, identity: Identity, decision: Authorization)
      modifies this`net, this`wire, this`access, this`clients
      ensures var (h, sent) := Put(old(Now()), c, O.Send(Reply(HelloOK, "", 0)), "");
        Now() == if sent != O.Accepted then Turned(h, c, RELAY_ERROR)
                 else h.(access := h.access[id := record.Bound()],
                         clients := h.clients[c := Client(id, record.Bound(), identity, decision)])
    {
      hide Put, Turned, Device.Bound, Reply;
      var sent := Enqueue(c, Reply(HelloOK, "", 0), "");
      if sent != O.Accepted {
        RejectGreeting(c, RELAY_ERROR);
        return;
      }
      access := access[id := record.Bound()];
      clients := clients[c := Client(id, record.Bound(), identity, decision)];
    }

    /** The device was deleted from the store. */
    method ApplyRevocation(id: string, p: Pending) returns (ghost order: seq<string>)
      requires p.work.Changing?
      modifies this
      ensures Now() == PublishRevoke(old(Now()), id, p, order)
    {
      hide FailDevice, CloseConn;
      order := [];
      if id !in devices || devices[id].serial != p.work.serial {
        return;
      }
      order := FailDeviceLocked(id, DEVICE_OFFLINE);
      CloseConnection(p.conn);
      devices := devices - {id};
      access := access - {id};
    }

    /** An access request failed; when its fate is unknown the old route stops before that is reported. */
    method RejectAccess(p: Pending, change: Change, code: string) returns (ghost order: seq<string>)
      requires p.work.Changing? && change.Manages?
      modifies this
      ensures Now() == FailAccess(old(Now()), p, change, code, order)
    {
      hide StopRouting, Put;
      order := [];
      if change.actor.Vouched? && code == RELAY_ERROR && change.request.action != "status" {
        order := StopDeviceRoutingLocked(p.conn);
        var _ := Enqueue(p.conn, Reply(AccessResult, code, 0), "");
        CloseConnection(p.conn);
        return;
      }
      var _ := Enqueue(p.conn, Reply(AccessResult, code, 0), "");
    }

    /** An access request was committed; a replaced slot is left alone. */
    method ApplyAccess(id: string, p: Pending, record: Device, size: nat)
      returns (ghost order: seq<string>, ghost members: seq<Conn>)
      requires p.work.Changing? && p.conn in roles && roles[p.conn] == DeviceRole(id)
      modifies this
      ensures Now() == PublishAccess(old(Now()), id, p, record, order, members, size)
    {
      hide Confirm, Invalidate, RoutesAt, RoutesOf, Visits, ClientsListed;
      order, members := [], [];
      var same := id in devices && devices[id].serial == p.work.serial;
      var changed := same && p.work.expected.ownershipId != record.ownershipId;
      if same {
        if changed {
          order, members := InvalidateOwnershipLocked(id);
          NobodyLeft(old(Now()), order, members, id);
        }
        RecordKeepsRoutes(Now(), id, record);
        devices := devices[id := devices[id].(record := record)];
        access := access[id := record.Bound()];
      }
      RoutesAtDevice(Now(), id, p.conn);
      ghost var left;
      var ok;
      ok, left := ConfirmChange(p.conn, Reply(AccessResult, "", size));
      if !changed {
        order := left;
      }
    }
  }

  lemma {:induction false} RoutesGo(h: Hub, order: seq<string>)
    ensures forall r <- InvalidateRoutes(h, order).inflight ::
      r in h.inflight && r !in order && InvalidateRoutes(h, order).inflight[r] == h.inflight[r]
    decreases |order|
  {
    if order != [] {
      OneGoes(h, order[0]);
      hide InvalidateOne;
      RoutesGo(InvalidateOne(h, order[0]), order[1..]);
      assert order == [order[0]] + order[1..];
    }
  }

  lemma SomethingVisited(order: seq<string>, routes: set<string>)
    requires Visits(order, routes) && order != []
    ensures routes != {}
  {
    assert order[0] in order;
    assert order[0] in routes;
  }

  lemma SendingKeepsPlaces(h: Hub, c: Conn, e: O.Event, r: string, from: Conn)
    ensures Put(h, c, e, r).0.inflight == h.inflight && RoutesAt(Put(h, c, e, r).0, from) == RoutesAt(h, from)
  {
    hide O.Step, O.Enqueue;
  }

  lemma OneGoes(h: Hub, r: string)
    ensures InvalidateOne(h, r).inflight == h.inflight - {r}
  {
    hide Put, Finish;
    if r in h.inflight {
      var id := h.inflight[r].device;
      if id in h.devices && h.devices[id].conn.Some? {
        SendingKeepsPlaces(h, h.devices[id].conn.value, O.Send(CancelFrame(r)), "", 0);
      }
      var h1 := CancelAtDevice(h, r);
      SendingKeepsPlaces(h1, h1.inflight[r].client, O.Send(Err(h1.inflight[r].request, RESULT_UNKNOWN)), r, 0);
      FinishLeavesOthers(Answer(h1, r, Err(h1.inflight[r].request, RESULT_UNKNOWN)).0, r);
    } else {
      assert h.inflight - {r} == h.inflight;
    }
  }

  lemma {:induction false} ClientsKeepRoutes(h: Hub, members: seq<Conn>)
    ensures RemoveClients(h, members).inflight == h.inflight && RemoveClients(h, members).devices == h.devices
    decreases |members|
  {
    if members != [] {
      hide O.Step;
      ClientsKeepRoutes(RemoveClient(h, members[0]), members[1..]);
    }
  }

  lemma NobodyLeft(h: Hub, order: seq<string>, members: seq<Conn>, id: string)
    requires Visits(order, RoutesOf(h, id))
    ensures RoutesOf(Invalidate(h, order, members), id) == {}
  {
    RoutesGo(h, order);
    ClientsKeepRoutes(InvalidateRoutes(h, order), members);
    hide InvalidateRoutes, RemoveClients;
    forall r <- InvalidateRoutes(h, order).inflight ensures InvalidateRoutes(h, order).inflight[r].device != id {
      assert h.inflight[r].device == id ==> r in RoutesOf(h, id);
    }
  }

  lemma RecordKeepsRoutes(h: Hub, id: string, record: Device)
    requires id in h.devices
    ensures RoutesOf(SetRecord(h, id, record), id) == RoutesOf(h, id)
  {
  }

  lemma RoutesAtDevice(h: Hub, id: string, c: Conn)
    requires c in h.roles && h.roles[c] == DeviceRole(id)
    ensures id !in h.devices || RoutesOf(h, id) == {} ==> RoutesAt(h, c) == {}
  {
  }

  lemma EmptyLoops(h: Hub, code: string)
    ensures FailDevice(h, [], code) == h && CancelClient(h, []) == h && InvalidateRoutes(h, []) == h && RemoveClients(h, []) == h
  {
  }

  /** Finishing one route leaves the others in place. */
  lemma FinishLeavesOthers(h: Hub, r: string)
    ensures Finish(h, r).inflight == h.inflight - {r}
  {
    assert r !in h.inflight ==> h.inflight - {r} == h.inflight;
  }

  /** A dispatch looks only at the route ID, the size and the order. */
  lemma DispatchIgnores(h: Hub, from: Conn, target: string, exec: string, op: string, a: Env, b: Env)
    requires from in h.clients && target in h.devices && h.devices[target].conn.Some?
    requires a.route == b.route && a.rest == b.rest && a.order == b.order
    ensures Dispatch(h, from, target, exec, op, a) == Dispatch(h, from, target, exec, op, b)
  {
    hide Put, FailDevice, AddRoute;
  }
}
