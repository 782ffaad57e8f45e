/** The in-memory router (internal/relay/hub*.go). Each function is one section under the router's
    lock: it maps the whole state before to the whole state after. Handlers with storage I/O are
    split at the I/O, so that anything may happen while it is in flight. */
module HubModel {
  import opened Prelude
  import opened Devices
  import opened Frames
  import A = Access
  import History = AccessHistory
  import M = AdmissionModel
  import O = OutboxModel
  import I = InboxModel

  type Conn = nat

  const UNAUTHORIZED := "unauthorized"
  const UNKNOWN_DEVICE := "unknown_device"
  const UNKNOWN_EXEC := "unknown_exec"
  const DEVICE_OFFLINE := "device_offline"
  const INBOUND_DISABLED := "inbound_disabled"
  const RELAY_ERROR := "relay_error"
  const AGENT_ERROR := "agent_error"
  const RESULT_UNKNOWN := "result_unknown"
  const QUOTA_EXCEEDED := "quota_exceeded"
  const CANCEL := "cancel"
  const EXEC := "exec"
  const HANDOFF_SUBMIT := "handoff.submit"

  // ----- State ---------------------------------------------------------------------------------------

  /** `serial` tells one incarnation of a slot from the next, as its address does. */
  datatype Slot = Slot(serial: nat, conn: Option<Conn>, record: Device, online: bool, ready: bool)

  datatype Client = Client(target: string, access: Binding, identity: Identity, authorization: Authorization)

  datatype Route = Route(
    request: string, device: string, client: Conn, outBytes: nat, trunc: bool,
    binding: Client, operation: string, cancelled: bool)

  datatype RequestKey = RequestKey(client: Conn, id: string)

  /** How far the storage part of an identity operation has come. `Bad` carries the code its failure is
      reported with; a relay error leaves open whether the transaction took effect. */
  datatype Progress = Waiting | Good(record: Device) | Bad(code: string)

  /** Who asks, or the code with which the accounts did not say so: refused, or not readable. */
  datatype Actor = Vouched(identity: Identity) | Unvouched(code: string)

  datatype Change =
    | Settings(grantHash: string, inbound: bool)
    | Revoke
    | Manages(actor: Actor, request: A.Request)

  datatype Work =
    | Registering(secretHash: string, inbound: bool)
    | Joining(grantHash: string, identity: Identity, authorization: Authorization)
    | Changing(serial: nat, expected: Device, change: Change)

  /** The identity operation that holds the gate of a device number. */
  datatype Pending = Pending(conn: Conn, work: Work, progress: Progress)

  datatype Role = DeviceRole(id: string) | ClientRole(id: string)

  /** A renewal between its first check and its last. */
  datatype Renewal = Renewal(from: Conn, route: string)

  /** Who a route was made for and over which device connection; never forgotten. */
  datatype Issue = Issue(client: Conn, request: string, via: Conn)

  /** One event at one connection's outbox. `route` names the route it was caused by, "" for none. */
  datatype Signal = Signal(conn: Conn, event: O.Event, route: string, result: O.Admission)

  datatype Heard = Heard(conn: Conn, frame: Frame)
  datatype Grant = Grant(conn: Conn, route: string, ms: int)

  datatype Hub = Hub(
    devices: map<string, Slot>,
    access: map<string, Binding>,
    clients: map<Conn, Client>,
    inflight: map<string, Route>,
    requests: map<RequestKey, string>,
    active: M.Active,
    net: map<Conn, O.Outbox>,
    inboxes: map<Conn, I.Inbox>,
    deaf: set<Conn>,
    store: A.Store,
    gates: map<string, Pending>,
    renewals: set<Renewal>,
    serial: nat,
    // what happened so far
    roles: map<Conn, Role>,
    issued: map<string, Issue>,
    wire: seq<Signal>,
    heard: seq<Heard>,
    granted: seq<Grant>)

  const LIMIT := MAX_DEVICE_REQUESTS

  const Fresh := Hub(map[], map[], map[], map[], map[], map[], map[], map[], {}, History.Fresh.store, map[], {}, 0,
                     map[], map[], [], [], [])

  // ----- Sending -------------------------------------------------------------------------------------

  function Put(h: Hub, c: Conn, e: O.Event, route: string): (Hub, O.Admission) {
    if c !in h.net then (h, O.Closed)
    else
      var result := if e.Send? then O.Enqueue(h.net[c], e.frame).1 else O.Accepted;
      (h.(net := h.net[c := O.Step(h.net[c], e)], wire := h.wire + [Signal(c, e, route, result)]), result)
  }

  function Tell(h: Hub, c: Conn, f: Frame): Hub {
    Put(h, c, O.Send(f), "").0
  }

  function CloseConn(h: Hub, c: Conn): Hub {
    Put(h, c, O.CloseIt, "").0
  }

  /** A frame for the caller of a route. */
  function Answer(h: Hub, r: string, f: Frame): (Hub, O.Admission)
    requires r in h.inflight
  {
    Put(h, h.inflight[r].client, O.Send(f), r)
  }

  predicate Gone(h: Hub, c: Conn) {
    c !in h.net || h.net[c].cancelled
  }

  function Reply(kind: Kind, code: string, rest: nat): Frame {
    Frame(kind, "", "", code, "", false, rest)
  }

  // ----- Routes --------------------------------------------------------------------------------------

  function Finish(h: Hub, r: string): Hub {
    if r !in h.inflight then h
    else
      var task := h.inflight[r];
      h.(requests := h.requests - {RequestKey(task.client, task.request)},
         active := M.GiveBack(h.active, task.binding.access.deviceUid),
         inflight := h.inflight - {r})
  }

  function RoutesOf(h: Hub, id: string): set<string> {
    set r <- h.inflight | h.inflight[r].device == id
  }

  function RoutesFor(h: Hub, c: Conn): set<string> {
    set r <- h.inflight | h.inflight[r].client == c
  }

  /** `order` is the order in which a loop over the routes happens to visit them. */
  predicate Visits(order: seq<string>, routes: set<string>) {
    (set r <- order) == routes
  }

  function CancelAtDevice(h: Hub, r: string): Hub
    requires r in h.inflight
  {
    var id := h.inflight[r].device;
    if id in h.devices && h.devices[id].conn.Some? then Tell(h, h.devices[id].conn.value, CancelFrame(r)) else h
  }

  function FailOne(h: Hub, r: string, code: string): Hub {
    if r !in h.inflight then h
    else Finish(Answer(h, r, Err(h.inflight[r].request, code)).0, r)
  }

  function FailDevice(h: Hub, order: seq<string>, code: string): Hub
    decreases |order|
  {
    if order == [] then h else FailDevice(FailOne(h, order[0], code), order[1..], code)
  }

  function CancelOne(h: Hub, r: string): Hub {
    if r !in h.inflight then h else Finish(CancelAtDevice(h, r), r)
  }

  function CancelClient(h: Hub, order: seq<string>): Hub
    decreases |order|
  {
    if order == [] then h else CancelClient(CancelOne(h, order[0]), order[1..])
  }

  function InvalidateOne(h: Hub, r: string): Hub {
    if r !in h.inflight then h else FailOne(CancelAtDevice(h, r), r, RESULT_UNKNOWN)
  }

  function InvalidateRoutes(h: Hub, order: seq<string>): Hub
    decreases |order|
  {
    if order == [] then h else InvalidateRoutes(InvalidateOne(h, order[0]), order[1..])
  }

  function ClientsOf(h: Hub, id: string): set<Conn> {
    set c <- h.clients | h.clients[c].target == id
  }

  function RemoveClient(h: Hub, c: Conn): Hub {
    CloseConn(h.(clients := h.clients - {c}), c)
  }

  function RemoveClients(h: Hub, order: seq<Conn>): Hub
    decreases |order|
  {
    if order == [] then h else RemoveClients(RemoveClient(h, order[0]), order[1..])
  }

  /** Where a connection is the device's, by the role it was given. */
  function DeviceOf(h: Hub, c: Conn): Option<string> {
    if c in h.roles && h.roles[c].DeviceRole? && h.roles[c].id in h.devices
       && h.devices[h.roles[c].id].conn == Some(c) then Some(h.roles[c].id) else None
  }

  function Offline(h: Hub, id: string): Hub
    requires id in h.devices
  {
    h.(devices := h.devices[id := h.devices[id].(conn := None, online := false)])
  }

  /** Failed or uncertain writes stop routing at once. */
  function StopRouting(h: Hub, from: Conn, order: seq<string>): Hub {
    match DeviceOf(h, from)
    case None => h
    case Some(id) =>
      var h1 := FailDevice(h, order, DEVICE_OFFLINE);
      if id in h1.devices then Offline(h1, id) else h1
  }

  /** The routes a loop over the device behind `from` visits. */
  function RoutesAt(h: Hub, from: Conn): set<string> {
    match DeviceOf(h, from)
    case None => {}
    case Some(id) => RoutesOf(h, id)
  }

  // ----- Invocations ---------------------------------------------------------------------------------

  /** What the caller of an invoke cannot choose: the fresh route ID, whether a proof could be issued, the
      code of the access check made before the lock, and the size of payload and scope. */
  datatype Env = Env(verdict: string, route: string, proof: bool, rest: nat, order: seq<string>)

  /** The reason an invoke is refused once the lock is held, in the order the reasons are tried. */
  function Refusal(h: Hub, from: Conn, target: string, exec: string): string {
    if from !in h.clients || h.clients[from].target != target
       || target !in h.access || !h.clients[from].access.Matches(h.access[target]) then UNAUTHORIZED
    else if exec == "" then AGENT_ERROR
    else if RequestKey(from, exec) in h.requests then AGENT_ERROR
    else if target !in h.devices || !h.devices[target].online || !h.devices[target].ready
            || h.devices[target].conn.None? || h.devices[target].record.uid != h.clients[from].access.deviceUid then
      DEVICE_OFFLINE
    else if !h.devices[target].record.inbound then INBOUND_DISABLED
    else
      match M.Acquire(h.active, LIMIT, h.clients[from].access.deviceUid).1
      case Granted => ""
      case LimitReached => QUOTA_EXCEEDED
      case InvalidRequest => RELAY_ERROR
  }

  function AddRoute(h: Hub, from: Conn, target: string, exec: string, op: string, r: string): Hub
    requires from in h.clients && target in h.devices && h.devices[target].conn.Some?
  {
    var binding := h.clients[from];
    h.(requests := h.requests[RequestKey(from, exec) := r],
       inflight := h.inflight[r := Route(exec, target, from, 0, false, binding, op, false)],
       active := M.Acquire(h.active, LIMIT, binding.access.deviceUid).0,
       issued := h.issued[r := Issue(from, exec, h.devices[target].conn.value)])
  }

  /** Route IDs are random: a new one never repeats a finished one, and no device can name it before it is
      told. One that is still in flight is refused. */
  predicate FreshRoute(h: Hub, r: string) {
    r != "" && r !in h.issued && forall x <- h.heard :: x.frame.exec != r
  }

  function HandleInvoke(h: Hub, from: Conn, target: string, exec: string, op: string, env: Env): Hub {
    if op == CANCEL then Cancel(h, from, exec)
    else if env.verdict != "" then Tell(h, from, Nack(exec, env.verdict))
    else if Refusal(h, from, target, exec) != "" then Tell(h, from, Nack(exec, Refusal(h, from, target, exec)))
    else if Gone(h, from) then h
    else if env.route in h.inflight then Tell(h, from, Nack(exec, RELAY_ERROR))
    else if op == HANDOFF_SUBMIT && !env.proof then Tell(h, from, Nack(exec, RELAY_ERROR))
    else Dispatch(h, from, target, exec, op, env)
  }

  function Dispatch(h: Hub, from: Conn, target: string, exec: string, op: string, env: Env): Hub
    requires from in h.clients && target in h.devices && h.devices[target].conn.Some?
  {
    var device := h.devices[target].conn.value;
    var h1 := AddRoute(h, from, target, exec, op, env.route);
    var (h2, sent) := Put(h1, device, O.Send(Frame(Frames.Invoke, env.route, op, "", "", false, env.rest)), "");
    if sent == O.Accepted then h2
    else
      var h3 := CloseConn(FailDevice(h2, env.order, DEVICE_OFFLINE), device);
      if target in h3.devices then Offline(h3, target) else h3
  }

  function Cancel(h: Hub, from: Conn, exec: string): Hub {
    var key := RequestKey(from, exec);
    if key !in h.requests || h.requests[key] !in h.inflight || h.inflight[h.requests[key]].client != from then
      Tell(h, from, Err(exec, UNKNOWN_EXEC))
    else
      var r := h.requests[key];
      CancelAtDevice(SetRoute(h, r, h.inflight[r].(cancelled := true)), r)
  }

  function SetRoute(h: Hub, r: string, route: Route): Hub {
    h.(inflight := h.inflight[r := route])
  }

  /** What the byte budget of a route makes of one frame from the device. */
  datatype Passage = Withheld(route: Route) | Passed(route: Route, frame: Frame)

  function Budget(route: Route, f: Frame): Passage {
    if IsOutput(f) && |f.data| > MAX_FRAME_BYTES then Withheld(route.(trunc := true))
    else if IsOutput(f) && |f.data| > MAX_EXEC_OUTPUT_BYTES - route.outBytes then
      Withheld(route.(outBytes := MAX_EXEC_OUTPUT_BYTES, trunc := true))
    else
      Passed(if IsOutput(f) then route.(outBytes := route.outBytes + |f.data|) else route,
             f.(exec := route.request, truncated := f.truncated || (route.trunc && f.kind == Exit)))
  }

  function Forward(h: Hub, from: Conn, f: Frame, order: seq<string>): Hub {
    var r := f.exec;
    if r !in h.inflight || h.inflight[r].device !in h.devices
       || h.devices[h.inflight[r].device].conn != Some(from) then h
    else
      match Budget(h.inflight[r], f)
      case Withheld(route) => SetRoute(h, r, route)
      case Passed(route, out) => Deliver(SetRoute(h, r, route), r, out, order)
  }

  /** A frame within the budget is offered to the caller's outbox: a refusal is marked on the route, a
      closed outbox loses the caller, and a queued terminal ends the route. */
  function Deliver(h: Hub, r: string, out: Frame, order: seq<string>): Hub
    requires r in h.inflight
  {
    var (h1, sent) := Answer(h, r, out);
    match sent
    case Dropped => SetRoute(h1, r, h.inflight[r].(trunc := true))
    case Closed => RemoveClient(CancelClient(h1, order), h.inflight[r].client)
    case Accepted => if IsTerminal(out) then Finish(h1, r) else h1
  }

  function NoteDropped(h: Hub, from: Conn, f: Frame): Hub {
    if f.exec in h.inflight && h.inflight[f.exec].device in h.devices
       && h.devices[h.inflight[f.exec].device].conn == Some(from)
    then SetRoute(h, f.exec, h.inflight[f.exec].(trunc := true)) else h
  }

  function Drop(h: Hub, from: Conn, order: seq<string>): Hub {
    if from !in h.roles then h
    else
      match h.roles[from]
      case DeviceRole(_) => StopRouting(h, from, order)
      case ClientRole(_) => var h1 := CancelClient(h, order); h1.(clients := h1.clients - {from})
  }

  // ----- A device connection's reader ----------------------------------------------------------------

  /** A frame arrives: it is queued, dropped with a mark on its route, or ends the reading. */
  function Arrive(h: Hub, from: Conn, f: Frame): Hub
    requires from in h.inboxes
  {
    var (inbox, result) := I.Offer(h.inboxes[from], f);
    var h1 := h.(inboxes := h.inboxes[from := inbox]);
    match result
    case Queued => h1.(heard := h.heard + [Heard(from, f)])
    case OutputDropped => NoteDropped(h1.(heard := h.heard + [Heard(from, f)]), from, f)
    case Overloaded => Put(h1.(deaf := h.deaf + {from}), from, O.CancelIt, "").0
  }

  /** The handler takes the oldest queued frame; frames other than results of executions are handled
      by the other events of this model. */
  function Process(h: Hub, from: Conn, order: seq<string>): Hub
    requires from in h.inboxes && h.inboxes[from].frames != []
  {
    var f := h.inboxes[from].frames[0].frame;
    var h1 := h.(inboxes := h.inboxes[from := I.Settle(I.Receive(h.inboxes[from]))]);
    if IsOutput(f) || IsTerminal(f) then Forward(h1, from, f, order) else h1
  }

  // ----- Foreground renewals -------------------------------------------------------------------------

  predicate Live(h: Hub, from: Conn, r: string) {
    && r in h.inflight
    && var route := h.inflight[r];
      && !route.cancelled && route.operation == EXEC && !Gone(h, route.client) && !Gone(h, from)
      && route.client in h.clients
      && route.device in h.devices && route.device in h.access
      && h.devices[route.device].ready && h.devices[route.device].conn == Some(from)
      && h.devices[route.device].record.inbound
      && route.binding.access.Matches(h.devices[route.device].record.Bound())
      && route.binding.access.Matches(h.access[route.device])
  }

  function RenewBegin(h: Hub, from: Conn, r: string): Hub {
    if !Live(h, from, r) then Tell(h, from, Reply(ExecutionLease, UNAUTHORIZED, 0))
    else h.(renewals := h.renewals + {Renewal(from, r)})
  }

  /** The authority's answer, `ms` when it grants a lease, else the code of the refusal. What happened to
      the route meanwhile wins over it; `late` means that the request's own context has ended. */
  function RenewCommit(h: Hub, from: Conn, r: string, ms: int, code: string, late: bool): Hub {
    if Renewal(from, r) !in h.renewals then h
    else
      var h1 := h.(renewals := h.renewals - {Renewal(from, r)});
      if !Live(h1, from, r) then Tell(h1, from, Reply(ExecutionLease, UNAUTHORIZED, 0))
      else if late then Tell(h1, from, Reply(ExecutionLease, RELAY_ERROR, 0))
      else if code != "" then Tell(h1, from, Reply(ExecutionLease, code, 0))
      else Tell(h1.(granted := h1.granted + [Grant(from, r, ms)]), from, Reply(ExecutionLease, "", 0))
  }

  // ----- Identity operations: taking the gate ----------------------------------------------------------

  function HelloDevice(h: Hub, c: Conn, id: string, secretHash: string, inbound: bool): Hub {
    if c !in h.net || c in h.roles || id in h.gates then h
    else h.(roles := h.roles[c := DeviceRole(id)], gates := h.gates[id := Pending(c, Registering(secretHash, inbound), Waiting)])
  }

  function HelloClient(h: Hub, c: Conn, id: string, grantHash: string, identity: Identity): Hub {
    if c !in h.net || c in h.roles || id in h.gates then h
    else
      var none := Authorization(Binding(NONE, NONE, NONE), NONE, {}, 0);
      h.(roles := h.roles[c := ClientRole(id)], gates := h.gates[id := Pending(c, Joining(grantHash, identity, none), Waiting)])
  }

  /** Settings, revocation and access requests come over the device's own connection. */
  function BeginChange(h: Hub, c: Conn, change: Change): Hub {
    match DeviceOf(h, c)
    case None => h
    case Some(id) =>
      if id in h.gates then h
      else h.(gates := h.gates[id := Pending(c, Changing(h.devices[id].serial, h.devices[id].record, change), Waiting)])
  }

  /** The gate could not be taken, or storage refused: routing stops before the network drains. */
  function Reject(h: Hub, from: Conn, code: string, order: seq<string>): Hub {
    CloseConn(Tell(StopRouting(h, from, order), from, Reply(Error, code, 0)), from)
  }

  // ----- Identity operations: the transaction ----------------------------------------------------------

  /** The device a number stands for in the store. */
  function Stored(s: A.Store, id: string): Option<Device> {
    if id in s.numbers && s.numbers[id] in s.devices then Some(A.DeviceOf(s, s.numbers[id])) else None
  }

  function AccessCode(why: A.Why): string {
    match why
    case Denied => UNAUTHORIZED
    case Invalid => AGENT_ERROR
    case Limit => QUOTA_EXCEEDED
    case NotFound => UNKNOWN_DEVICE
  }

  /** A transaction and what the caller learns of it. */
  function Commit(s: A.Store, r: A.Outcome<A.Store>, id: string, w: WriteOutcome): (A.Store, Progress) {
    match r
    case Refused(why) => (s, Bad(AccessCode(why)))
    case Ok(next) =>
      if w != Written then (AfterWrite(s, next, w), Bad(RELAY_ERROR))
      else if Stored(next, id).None? then (next, Bad(UNAUTHORIZED))
      else (next, Good(Stored(next, id).value))
  }

  function PerformRegister(s: A.Store, id: string, secretHash: string, inbound: bool, w: WriteOutcome): (A.Store, Progress) {
    Commit(s, A.RegisterDevice(s, id, secretHash, inbound), id, w)
  }

  /** Loading the device and, for an owned one, resolving what the caller may do. */
  function PerformJoin(s: A.Store, id: string, work: Work, now: int, late: int, w: WriteOutcome): (Work, Progress)
    requires work.Joining?
  {
    if w != Written then (work, Bad(RELAY_ERROR))
    else if Stored(s, id).None? then (work, Bad(UNKNOWN_DEVICE))
    else
      var record := Stored(s, id).value;
      if record.ownershipId == NONE then (work, Good(record))
      else
        match A.ResolveFor(s, record, work.identity, now, late)
        case None => (work, Bad(UNAUTHORIZED))
        case Some(a) => (work.(authorization := a), Good(record))
  }

  function PerformChange(s: A.Store, id: string, expected: Device, change: Change, now: int, late: int, w: WriteOutcome)
    : (A.Store, Progress)
  {
    match change
    case Settings(grantHash, inbound) =>
      Commit(s, A.UpdateDevice(s, id, expected.(grantHash := grantHash, inbound := inbound)), id, w)
    case Revoke =>
      var r := A.DeleteDevice(s, id, expected.uid, expected.secretHash);
      if r.Refused? then (s, Bad(AccessCode(r.why)))
      else if w != Written then (AfterWrite(s, r.value, w), Bad(RELAY_ERROR))
      else (r.value, Good(expected))
    case Manages(actor, request) =>
      match actor
      case Unvouched(code) => (s, Bad(code))
      case Vouched(identity) => Commit(s, A.Manage(s, id, expected, identity, request, now, late), id, w)
  }

  function Perform(h: Hub, id: string, now: int, late: int, w: WriteOutcome): Hub {
    if id !in h.gates || h.gates[id].progress != Waiting then h
    else
      var p := h.gates[id];
      match p.work
      case Registering(secretHash, inbound) =>
        var (s, progress) := PerformRegister(h.store, id, secretHash, inbound, w);
        h.(store := s, gates := h.gates[id := p.(progress := progress)])
      case Joining(_, _, _) =>
        var (work, progress) := PerformJoin(h.store, id, p.work, now, late, w);
        h.(gates := h.gates[id := p.(work := work, progress := progress)])
      case Changing(_, expected, change) =>
        var (s, progress) := PerformChange(h.store, id, expected, change, now, late, w);
        h.(store := s, gates := h.gates[id := p.(progress := progress)])
  }

  // ----- Identity operations: publishing the result ----------------------------------------------------

  function Release(h: Hub, id: string): Hub {
    h.(gates := h.gates - {id})
  }

  /** A greeting that failed is answered with an error and closed. */
  function Turned(h: Hub, c: Conn, code: string): Hub {
    CloseConn(Tell(h, c, Reply(Error, code, 0)), c)
  }

  /** The replaced connection, if any, loses its routes and is closed. */
  function Replaced(h: Hub, id: string, c: Conn, order: seq<string>): Hub {
    if id in h.devices && h.devices[id].conn.Some? && h.devices[id].conn != Some(c)
    then CloseConn(FailDevice(h, order, DEVICE_OFFLINE), h.devices[id].conn.value) else h
  }

  function PublishDevice(h: Hub, id: string, c: Conn, record: Device, order: seq<string>): Hub {
    if Gone(h, c) then Turned(h, c, RELAY_ERROR)
    else
      var (h1, sent) := Put(h, c, O.Send(Reply(HelloOK, "", 0)), "");
      if sent != O.Accepted then Turned(h1, c, RELAY_ERROR)
      else
        var h2 := Replaced(h1, id, c, order);
        h2.(access := h2.access[id := record.Bound()],
            devices := h2.devices[id := Slot(h2.serial, Some(c), record, true, false)],
            serial := h2.serial + 1)
  }

  function PublishClient(h: Hub, id: string, p: Pending, record: Device): Hub
    requires p.work.Joining?
  {
    var c := p.conn;
    if Gone(h, c) then Turned(h, c, RELAY_ERROR)
    else if record.ownershipId == NONE
         && (record.grantHash == "" || record.grantHash != p.work.grantHash || record.uid == NONE || record.grantId == NONE) then
      Turned(h, c, UNAUTHORIZED)
    else
      var decision := if record.ownershipId == NONE
                      then Authorization(record.Bound(), NONE, OPERATIONS, 0) else p.work.authorization;
      var (h1, sent) := Put(h, c, O.Send(Reply(HelloOK, "", 0)), "");
      if sent != O.Accepted then Turned(h1, c, RELAY_ERROR)
      else h1.(access := h1.access[id := record.Bound()],
               clients := h1.clients[c := Client(id, record.Bound(), p.work.identity, decision)])
  }

  function SetRecord(h: Hub, id: string, record: Device): Hub
    requires id in h.devices
  {
    h.(devices := h.devices[id := h.devices[id].(record := record)], access := h.access[id := record.Bound()])
  }

  /** Foreground executions keep their route but can never be renewed again. */
  function RevokeForeground(h: Hub, id: string): Hub {
    h.(inflight := map r | r in h.inflight ::
      if h.inflight[r].device == id && h.inflight[r].operation == EXEC then h.inflight[r].(cancelled := true)
      else h.inflight[r])
  }

  /** The confirmation is queued before readiness is published; if that fails, routing stops. */
  function Confirm(h: Hub, from: Conn, f: Frame, order: seq<string>): (Hub, bool) {
    var (h1, sent) := Put(h, from, O.Send(f), "");
    if sent == O.Accepted then (h1, true) else (CloseConn(StopRouting(h1, from, order), from), false)
  }

  function PublishSettings(h: Hub, id: string, p: Pending, record: Device, order: seq<string>): Hub
    requires p.work.Changing?
  {
    if id !in h.devices || h.devices[id].serial != p.work.serial then h
    else
      var off := h.devices[id].record.inbound && !record.inbound;
      var h1 := SetRecord(h, id, record);
      var h2 := if off then RevokeForeground(h1, id) else h1;
      var (h3, confirmed) := Confirm(h2, p.conn, Reply(SettingsResult, "", 0), order);
      if confirmed && id in h3.devices then h3.(devices := h3.devices[id := h3.devices[id].(ready := true)]) else h3
  }

  function PublishRevoke(h: Hub, id: string, p: Pending, order: seq<string>): Hub
    requires p.work.Changing?
  {
    if id !in h.devices || h.devices[id].serial != p.work.serial then h
    else
      var h1 := CloseConn(FailDevice(h, order, DEVICE_OFFLINE), p.conn);
      h1.(devices := h1.devices - {id}, access := h1.access - {id})
  }

  /** The loops of one ownership change: over the routes of the device, then over its clients. */
  function Invalidate(h: Hub, order: seq<string>, members: seq<Conn>): Hub {
    RemoveClients(InvalidateRoutes(h, order), members)
  }

  function PublishAccess(h: Hub, id: string, p: Pending, record: Device, order: seq<string>, members: seq<Conn>,
                         rest: nat): Hub
    requires p.work.Changing?
  {
    var same := id in h.devices && h.devices[id].serial == p.work.serial;
    var h1 :=
      if !same then h
      else
        var h0 := if p.work.expected.ownershipId != record.ownershipId then Invalidate(h, order, members) else h;
        if id in h0.devices then SetRecord(h0, id, record) else h0;
    var left := if same && p.work.expected.ownershipId != record.ownershipId then [] else order;
    Confirm(h1, p.conn, Reply(AccessResult, "", rest), left).0
  }

  /** The transaction of an access request was tried, and its error leaves open whether it took effect. */
  predicate MayHaveCommitted(change: Change, code: string)
    requires change.Manages?
  {
    change.actor.Vouched? && code == RELAY_ERROR && change.request.action != "status"
  }

  /** An access request that failed: an unknown outcome stops the old route before it is reported. */
  function FailAccess(h: Hub, p: Pending, change: Change, code: string, order: seq<string>): Hub
    requires p.work.Changing? && change.Manages?
  {
    if MayHaveCommitted(change, code) then
      CloseConn(Tell(StopRouting(h, p.conn, order), p.conn, Reply(AccessResult, code, 0)), p.conn)
    else Tell(h, p.conn, Reply(AccessResult, code, 0))
  }

  function Publish(h: Hub, id: string, order: seq<string>, members: seq<Conn>, rest: nat): Hub
    requires id in h.gates && h.gates[id].progress != Waiting
  {
    var p := h.gates[id];
    match p.work
    case Registering(_, _) =>
      if p.progress.Bad? then Turned(h, p.conn, p.progress.code)
      else PublishDevice(h, id, p.conn, p.progress.record, order)
    case Joining(_, _, _) =>
      if p.progress.Bad? then Turned(h, p.conn, p.progress.code) else PublishClient(h, id, p, p.progress.record)
    case Changing(_, _, change) =>
      if change.Manages? then
        if p.progress.Bad? then FailAccess(h, p, change, p.progress.code, order)
        else PublishAccess(h, id, p, p.progress.record, order, members, rest)
      else if p.progress.Bad? then Reject(h, p.conn, p.progress.code, order)
      else if change.Revoke? then PublishRevoke(h, id, p, order)
      else PublishSettings(h, id, p, p.progress.record, order)
  }

  // ----- All events ------------------------------------------------------------------------------------

  datatype Event =
    | Connect
    | Outboxes(conn: Conn, event: O.Event)
    | GreetDevice(conn: Conn, id: string, secretHash: string, inbound: bool)
    | GreetClient(conn: Conn, id: string, grantHash: string, identity: Identity)
    | Changes(conn: Conn, change: Change)
    | Rejects(conn: Conn, code: string, order: seq<string>)
    | Transaction(id: string, now: int, late: int, w: WriteOutcome)
    | Publication(id: string, order: seq<string>, members: seq<Conn>, rest: nat)
    | Accounts(now: int, account: History.Event)
    | Invokes(conn: Conn, exec: string, op: string, env: Env)
    | Arrives(conn: Conn, frame: Frame)
    | Handles(conn: Conn, order: seq<string>)
    | RenewsBegin(conn: Conn, route: string)
    | RenewsCommit(conn: Conn, route: string, ms: int, code: string, expired: bool)
    | Drops(conn: Conn, order: seq<string>)

  predicate Connects(h: Hub, c: Conn) {
    c in h.net && c in h.inboxes
  }

  predicate ClientsListed(h: Hub, members: seq<Conn>, id: string) {
    (set c <- members) == ClientsOf(h, id)
  }

  /** What the rest of the relay can do now: loops visit what there is, connections read and write one at a
      time, and the accounts change without touching devices. */
  predicate Possible(h: Hub, e: Event) {
    match e
    case Connect => true
    case Outboxes(c, event) => c in h.net && !event.Send?
    case GreetDevice(_, _, _, _) => true
    case GreetClient(_, _, _, _) => true
    case Changes(_, _) => true
    case Rejects(c, _, order) => Visits(order, RoutesAt(h, c))
    case Transaction(_, _, _, _) => true
    case Publication(id, order, members, _) =>
      id in h.gates && h.gates[id].progress != Waiting && Visits(order, RoutesOf(h, id)) && ClientsListed(h, members, id)
    case Accounts(_, account) =>
      account.CreatesPrincipal? || account.Issues? || account.Revokes? || account.Activates?
    case Invokes(c, _, _, env) =>
      c in h.roles && (FreshRoute(h, env.route) || env.route in h.inflight) && Visits(env.order, RoutesOf(h, h.roles[c].id) + {env.route})
    case Arrives(c, _) => Connects(h, c) && c !in h.deaf && c in h.roles && h.roles[c].DeviceRole?
    case Handles(c, order) =>
      c in h.inboxes && h.inboxes[c].frames != [] && h.inboxes[c].settling == 0 && Visits(order, RoutesOfCaller(h, c))
    case RenewsBegin(_, _) => true
    case RenewsCommit(_, _, _, _, _) => true
    case Drops(c, order) =>
      c in h.roles && Visits(order, if h.roles[c].DeviceRole? then RoutesAt(h, c) else RoutesFor(h, c))
  }

  /** The routes of the caller that the oldest queued frame is for. */
  function RoutesOfCaller(h: Hub, c: Conn): set<string>
    requires c in h.inboxes && h.inboxes[c].frames != []
  {
    var r := h.inboxes[c].frames[0].frame.exec;
    if r in h.inflight then RoutesFor(h, h.inflight[r].client) else {}
  }

  function NewConnection(h: Hub): Hub {
    var c := h.serial;
    h.(net := h.net[c := O.EmptyOutbox], inboxes := h.inboxes[c := I.EmptyInbox], serial := c + 1)
  }

  function Invoked(h: Hub, c: Conn, exec: string, op: string, env: Env): Hub
    requires c in h.roles
  {
    match h.roles[c]
    case DeviceRole(_) => Tell(h, c, Nack(exec, UNAUTHORIZED))
    case ClientRole(target) => if Gone(h, c) then h else HandleInvoke(h, c, target, exec, op, env)
  }

  function Act(h: Hub, e: Event): Hub
    requires Possible(h, e)
  {
    match e
    case Connect => NewConnection(h)
    case Outboxes(c, event) => Put(h, c, event, "").0
    case GreetDevice(c, id, secretHash, inbound) => HelloDevice(h, c, id, secretHash, inbound)
    case GreetClient(c, id, grantHash, identity) => HelloClient(h, c, id, grantHash, identity)
    case Changes(c, change) => BeginChange(h, c, change)
    case Rejects(c, code, order) => Reject(h, c, code, order)
    case Transaction(id, now, late, w) => Perform(h, id, now, late, w)
    case Publication(id, order, members, rest) => Release(Publish(h, id, order, members, rest), id)
    case Accounts(now, account) => h.(store := History.Step(History.World(h.store, now), account).store)
    case Invokes(c, exec, op, env) => Invoked(h, c, exec, op, env)
    case Arrives(c, f) => Arrive(h, c, f)
    case Handles(c, order) => Process(h, c, order)
    case RenewsBegin(c, r) => RenewBegin(h, c, r)
    case RenewsCommit(c, r, ms, code, expired) => RenewCommit(h, c, r, ms, code, expired)
    case Drops(c, order) => Drop(h, c, order)
  }

  function Step(h: Hub, e: Event): Hub {
    if Possible(h, e) then Act(h, e) else h
  }

  function Run(h: Hub, events: seq<Event>): Hub
    decreases |events|
  {
    if events == [] then h else Run(Step(h, events[0]), events[1..])
  }
}
