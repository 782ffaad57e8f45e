/** What a handler does for its caller, in every reachable state: who is sent what, and which route changes. */
module HubAnswers {
  import opened Prelude
  import opened Devices
  import opened Frames
  import opened HubModel
  import opened HubRouting
  import opened HubRecords
  import opened HubWire
  import opened HubLease
  import opened HubSteps
  import opened HubCalls
  import opened HubHistory
  import opened HubRenewals
  import opened HubEndings
  import M = AdmissionModel
  import O = OutboxModel
  import I = InboxModel

  /** The state in which frame `f` has been put to connection `c`, for route `r` if there is one, and nothing else has
      happened. */
  function Sent(h: Hub, c: Conn, f: Frame, r: string): Hub
    requires c in h.net
  {
    var (b, result) := O.Enqueue(h.net[c], f);
    h.(net := h.net[c := b], wire := h.wire + [Signal(c, O.Send(f), r, result)])
  }

  /** The outbox takes the frame. */
  predicate Takes(h: Hub, c: Conn, f: Frame) {
    c in h.net && O.Enqueue(h.net[c], f).1 == O.Accepted
  }

  lemma PutIsSent(h: Hub, c: Conn, f: Frame, r: string)
    requires c in h.net
    ensures Put(h, c, O.Send(f), r) == (Sent(h, c, f, r), O.Enqueue(h.net[c], f).1)
  {
    hide O.Enqueue;
  }

  /** A connection of a caller that is still open. */
  predicate OpenCaller(h: Hub, c: Conn) {
    c in h.roles && h.roles[c].ClientRole? && c in h.net && !h.net[c].cancelled
  }

  // ----- Cancelling ------------------------------------------------------------------------------------

  /** Cancelling a request in flight puts the cancellation to the very connection its invoke went out on, marks that
      route, and does nothing else; any other request is answered as unknown. */
  lemma CancelReachesDevice(events: seq<Event>, c: Conn, exec: string, env: Env)
    requires var h := Run(Fresh, events); OpenCaller(h, c) && Possible(h, Invokes(c, exec, "cancel", env))
    ensures var h := Run(Fresh, events);
      var h', key := Step(h, Invokes(c, exec, "cancel", env)), RequestKey(c, exec);
      if key in h.requests then
        var r := h.requests[key];
        && r in h.inflight && r in h.issued && h.issued[r].via in h.net
        && h' == Sent(h.(inflight := h.inflight[r := h.inflight[r].(cancelled := true)]),
                      h.issued[r].via, Frame(Kind.Invoke, r, "cancel", "", "", false, 0), "")
      else h' == Sent(h, c, Frame(Kind.Error, exec, "", "unknown_exec", "", false, 0), "")
  {
    var h := Run(Fresh, events);
    FreshIsSane();
    RunSane(Fresh, events);
    hide Run, Narrows;
    InvokeSteps(h, c, exec, CANCEL, env);
    var key := RequestKey(c, exec);
    hide Step, Sent, Possible, Cancel;
    CancelAnswers(h, c, exec);
    hide Sane;
  }

  lemma CancelAnswers(h: Hub, c: Conn, exec: string)
    requires Sane(h) && c in h.net
    ensures var key := RequestKey(c, exec);
      if key in h.requests then
        var r := h.requests[key];
        && r in h.inflight && r in h.issued && h.issued[r].via in h.net
        && Cancel(h, c, exec) == Sent(h.(inflight := h.inflight[r := h.inflight[r].(cancelled := true)]),
                                      h.issued[r].via, Frame(Kind.Invoke, r, "cancel", "", "", false, 0), "")
      else Cancel(h, c, exec) == Sent(h, c, Frame(Kind.Error, exec, "", "unknown_exec", "", false, 0), "")
  {
    var key := RequestKey(c, exec);
    if key in h.requests {
      RequestMeans(h, c, exec);
      EndsAreConnected(h, h.requests[key]);
      hide Sane, Sent, Cancel;
      CancelOnRoute(h, c, exec, h.requests[key], h.issued[h.requests[key]].via);
    } else {
      PutIsSent(h, c, Err(exec, UNKNOWN_EXEC), "");
      hide Sane, Put, Sent;
    }
  }

  lemma CancelOnRoute(h: Hub, c: Conn, exec: string, r: string, via: Conn)
    requires RequestKey(c, exec) in h.requests && h.requests[RequestKey(c, exec)] == r && r in h.inflight && via in h.net
    requires h.inflight[r].client == c && h.inflight[r].device in h.devices && h.devices[h.inflight[r].device].conn == Some(via)
    ensures Cancel(h, c, exec) == Sent(h.(inflight := h.inflight[r := h.inflight[r].(cancelled := true)]),
                                       via, Frame(Kind.Invoke, r, "cancel", "", "", false, 0), "")
  {
    PutIsSent(h.(inflight := h.inflight[r := h.inflight[r].(cancelled := true)]), via, CancelFrame(r), "");
    hide Put, Sent;
  }

  // ----- Invoking --------------------------------------------------------------------------------------

  /** Why an invoke is not dispatched, first things first; "" when it is. */
  function Reason(h: Hub, c: Conn, exec: string, op: string, env: Env): string
    requires c in h.roles && h.roles[c].ClientRole?
  {
    var id := h.roles[c].id;
    if env.verdict != "" then env.verdict
    else if c !in h.clients || id !in h.access || !h.clients[c].access.Matches(h.access[id]) then "unauthorized"
    else if exec == "" || RequestKey(c, exec) in h.requests then "agent_error"
    else if id !in h.devices || h.devices[id].conn.None? || !h.devices[id].online || !h.devices[id].ready
            || h.devices[id].record.uid != h.clients[c].access.deviceUid then "device_offline"
    else if !h.devices[id].record.inbound then "inbound_disabled"
    else if |Using(h.inflight, h.devices[id].record.uid)| >= 16 then "quota_exceeded"
    else if env.route in h.inflight || (op == "handoff.submit" && !env.proof) then "relay_error"
    else ""
  }

  /** A refused invoke is answered with its reason and changes nothing. */
  lemma InvokeRefused(events: seq<Event>, c: Conn, exec: string, op: string, env: Env)
    requires var h := Run(Fresh, events);
      OpenCaller(h, c) && Possible(h, Invokes(c, exec, op, env)) && op != "cancel" && Reason(h, c, exec, op, env) != ""
    ensures var h := Run(Fresh, events);
      Step(h, Invokes(c, exec, op, env))
        == Sent(h, c, Frame(Kind.InvokeNack, exec, "", Reason(h, c, exec, op, env), "", false, 0), "")
  {
    var h := Run(Fresh, events);
    FreshIsSane();
    RunSane(Fresh, events);
    hide Run, Narrows;
    InvokeSteps(h, c, exec, op, env);
    SaneRegisters(h, c);
    hide Sane, Step, Possible, HandleInvoke, Registered, Reason, Sent;
    InvokeReasons(h, c, exec, op, env);
  }

  lemma InvokeSteps(h: Hub, c: Conn, exec: string, op: string, env: Env)
    requires OpenCaller(h, c) && Possible(h, Invokes(c, exec, op, env))
    ensures Step(h, Invokes(c, exec, op, env)) == HandleInvoke(h, c, h.roles[c].id, exec, op, env)
  {
    hide HandleInvoke, RoutesOf, Visits, FreshRoute;
  }

  lemma UidIsDrawn(h: Hub, c: Conn)
    requires Sane(h) && c in h.clients && h.clients[c].target in h.access
    requires h.clients[c].access.Matches(h.access[h.clients[c].target])
    ensures h.clients[c].access.deviceUid != NONE
    ensures M.Count(h.active, h.clients[c].access.deviceUid) == |Using(h.inflight, h.clients[c].access.deviceUid)|
  {
    hide Inverse, CallersHeld, DevicesHeld, IssuesHeld, SlotRoles, ClientRoles, GateRoles, Joiners, IssueRoles, Known,
         Records, Wired, Using;
  }

  lemma TargetIsRole(h: Hub, c: Conn)
    requires Sane(h) && c in h.clients
    ensures c in h.roles && h.roles[c] == ClientRole(h.clients[c].target)
  {
    hide Inverse, CallersHeld, DevicesHeld, IssuesHeld, Counted, SlotRoles, GateRoles, Joiners, IssueRoles, Known, Records, Wired;
  }

  /** What the invariants say of a caller with a current binding. */
  predicate Registered(h: Hub, c: Conn) {
    c in h.clients ==>
      && c in h.roles && h.roles[c] == ClientRole(h.clients[c].target)
      && (h.clients[c].target in h.access && h.clients[c].access.Matches(h.access[h.clients[c].target]) ==>
            && h.clients[c].access.deviceUid != NONE
            && M.Count(h.active, h.clients[c].access.deviceUid) == |Using(h.inflight, h.clients[c].access.deviceUid)|)
  }

  lemma SaneRegisters(h: Hub, c: Conn)
    requires Sane(h)
    ensures Registered(h, c)
  {
    if c in h.clients {
      TargetIsRole(h, c);
      if h.clients[c].target in h.access && h.clients[c].access.Matches(h.access[h.clients[c].target]) {
        UidIsDrawn(h, c);
      }
    }
    hide Sane, Using, M.Count, Binding.Matches;
  }

  lemma RefusedExactly(h: Hub, c: Conn, exec: string, op: string, env: Env)
    requires Registered(h, c) && OpenCaller(h, c) && env.verdict == ""
    ensures var refusal, reason := Refusal(h, c, h.roles[c].id, exec), Reason(h, c, exec, op, env);
      if refusal != "" then refusal == reason
      else reason == if env.route in h.inflight || (op == HANDOFF_SUBMIT && !env.proof) then "relay_error" else ""
  {
    hide Using, Binding.Matches, M.Count;
  }

  lemma InvokeReasons(h: Hub, c: Conn, exec: string, op: string, env: Env)
    requires Registered(h, c) && OpenCaller(h, c) && op != CANCEL && Reason(h, c, exec, op, env) != ""
    ensures HandleInvoke(h, c, h.roles[c].id, exec, op, env)
        == Sent(h, c, Frame(Kind.InvokeNack, exec, "", Reason(h, c, exec, op, env), "", false, 0), "")
  {
    if env.verdict == "" {
      RefusedExactly(h, c, exec, op, env);
    }
    PutIsSent(h, c, Nack(exec, Reason(h, c, exec, op, env)), "");
    hide Refusal, Put, Sent, Dispatch, Cancel, Registered;
    assert env.verdict != "" ==> Reason(h, c, exec, op, env) == env.verdict;
    hide Reason;
  }

  /** The state with the route on record. */
  function Routed(h: Hub, c: Conn, exec: string, op: string, r: string, via: Conn): Hub
    requires c in h.clients
  {
    var binding := h.clients[c];
    var uid := binding.access.deviceUid;
    h.(requests := h.requests[RequestKey(c, exec) := r],
       inflight := h.inflight[r := Route(exec, binding.target, c, 0, false, binding, op, false)],
       active := h.active[uid := |Using(h.inflight, uid)| + 1],
       issued := h.issued[r := Issue(c, exec, via)])
  }

  lemma RoutedRoutes(h: Hub, c: Conn, exec: string, op: string, r: string, via: Conn)
    requires c in h.clients && r !in h.inflight && via in h.net
    ensures var h1 := Routed(h, c, exec, op, r, via);
      forall f: Frame, q: string :: RoutesOf(Sent(h1, via, f, q), h.clients[c].target) == RoutesOf(h, h.clients[c].target) + {r}
  {
  }

  /** Without a reason against it an invoke is dispatched: when the device's connection takes it, the route is on
      record for its caller, request, device and operation, and the device is sent that operation under the route's
      ID; when it does not, the device is lost, and with it all its routes. */
  lemma InvokeDispatched(events: seq<Event>, c: Conn, exec: string, op: string, env: Env)
    requires var h := Run(Fresh, events);
      OpenCaller(h, c) && Possible(h, Invokes(c, exec, op, env)) && op != "cancel" && Reason(h, c, exec, op, env) == ""
    ensures var h := Run(Fresh, events);
      var h', id := Step(h, Invokes(c, exec, op, env)), h.roles[c].id;
      && c in h.clients && id in h.devices && h.devices[id].conn.Some?
      && var via := h.devices[id].conn.value;
         var f := Frame(Kind.Invoke, env.route, op, "", "", false, env.rest);
         && via in h.net
         && (Takes(h, via, f) ==> h' == Sent(Routed(h, c, exec, op, env.route, via), via, f, ""))
         && (!Takes(h, via, f) ==>
               && id in h'.devices && h'.devices[id].conn.None? && !h'.devices[id].online
               && env.route in h'.issued && env.route !in h'.inflight
               && forall r <- h'.inflight :: h'.inflight[r].device != id)
  {
    var h := Run(Fresh, events);
    FreshIsSane();
    RunSane(Fresh, events);
    hide Run, Narrows;
    InvokeSteps(h, c, exec, op, env);
    DispatchVisits(h, c, exec, op, env);
    SaneRegisters(h, c);
    ReasonMeans(h, c, exec, op, env);
    SlotIsConnected(h, h.roles[c].id);
    hide Sane, Step, Possible, HandleInvoke, Registered, Reason, Sent, Routed, Takes, Visits, RoutesOf;
    DispatchAnswers(h, c, exec, op, env);
  }

  lemma DispatchVisits(h: Hub, c: Conn, exec: string, op: string, env: Env)
    requires OpenCaller(h, c) && Possible(h, Invokes(c, exec, op, env))
    ensures Visits(env.order, RoutesOf(h, h.roles[c].id) + {env.route})
  {
    hide RoutesOf, Visits, FreshRoute;
  }

  lemma SlotIsConnected(h: Hub, id: string)
    requires Sane(h) && id in h.devices && h.devices[id].conn.Some?
    ensures h.devices[id].conn.value in h.net
  {
    hide Inverse, CallersHeld, DevicesHeld, IssuesHeld, Counted, ClientRoles, GateRoles, Joiners, IssueRoles, Records, Wired;
  }

  lemma DispatchAnswers(h: Hub, c: Conn, exec: string, op: string, env: Env)
    requires Registered(h, c) && OpenCaller(h, c) && op != CANCEL && Reason(h, c, exec, op, env) == ""
    requires c in h.clients && h.roles[c].id in h.devices && h.devices[h.roles[c].id].conn.Some?
    requires h.devices[h.roles[c].id].conn.value in h.net
    requires Visits(env.order, RoutesOf(h, h.roles[c].id) + {env.route})
    ensures var h', id := HandleInvoke(h, c, h.roles[c].id, exec, op, env), h.roles[c].id;
      var via := h.devices[id].conn.value;
      var f := Frame(Kind.Invoke, env.route, op, "", "", false, env.rest);
      && (Takes(h, via, f) ==> h' == Sent(Routed(h, c, exec, op, env.route, via), via, f, ""))
      && (!Takes(h, via, f) ==>
               && id in h'.devices && h'.devices[id].conn.None? && !h'.devices[id].online
               && env.route in h'.issued && env.route !in h'.inflight
               && forall r <- h'.inflight :: h'.inflight[r].device != id)
  {
    ReasonMeans(h, c, exec, op, env);
    RefusedExactly(h, c, exec, op, env);
    var id := h.roles[c].id;
    var via := h.devices[id].conn.value;
    RoutedIsAdded(h, c, exec, op, env.route, via);
    RoutedRoutes(h, c, exec, op, env.route, via);
    hide Reason, Refusal, Registered, Using, AddRoute, Routed, Cancel;
    assert HandleInvoke(h, c, id, exec, op, env) == Dispatch(h, c, id, exec, op, env);
    DispatchSends(h, c, exec, op, env, via);
    hide HandleInvoke, Dispatch, Sent, RoutesOf, Visits;
  }

  lemma RoutedIsAdded(h: Hub, c: Conn, exec: string, op: string, r: string, via: Conn)
    requires Registered(h, c) && c in h.clients && h.clients[c].target in h.access
    requires h.clients[c].access.Matches(h.access[h.clients[c].target])
    requires |Using(h.inflight, h.clients[c].access.deviceUid)| < LIMIT
    requires h.clients[c].target in h.devices && h.devices[h.clients[c].target].conn == Some(via)
    ensures AddRoute(h, c, h.clients[c].target, exec, op, r) == Routed(h, c, exec, op, r, via)
  {
    hide Using, M.Count;
  }

  lemma DispatchSends(h: Hub, c: Conn, exec: string, op: string, env: Env, via: Conn)
    requires c in h.clients && h.clients[c].target in h.devices && h.devices[h.clients[c].target].conn == Some(via) && via in h.net
    requires AddRoute(h, c, h.clients[c].target, exec, op, env.route) == Routed(h, c, exec, op, env.route, via)
    requires env.route !in h.inflight && Visits(env.order, RoutesOf(h, h.clients[c].target) + {env.route})
    ensures var h', id := Dispatch(h, c, h.clients[c].target, exec, op, env), h.clients[c].target;
      var f := Frame(Kind.Invoke, env.route, op, "", "", false, env.rest);
      && (Takes(h, via, f) ==> h' == Sent(Routed(h, c, exec, op, env.route, via), via, f, ""))
      && (!Takes(h, via, f) ==>
               && id in h'.devices && h'.devices[id].conn.None? && !h'.devices[id].online
               && env.route in h'.issued && env.route !in h'.inflight
               && forall r <- h'.inflight :: h'.inflight[r].device != id)
  {
    var id := h.clients[c].target;
    var f := Frame(Kind.Invoke, env.route, op, "", "", false, env.rest);
    RoutedRoutes(h, c, exec, op, env.route, via);
    RoutedFields(h, c, exec, op, env.route, via);
    hide Routed, AddRoute;
    var h1 := Routed(h, c, exec, op, env.route, via);
    PutIsSent(h1, via, f, "");
    hide Put;
    var h2 := Sent(h1, via, f, "");
    if !Takes(h, via, f) {
      assert env.route in RoutesOf(h2, id) && RoutesOf(h2, id) == set r <- env.order;
      LostAtOnce(h2, env.order, id, via);
    }
    hide Sent, RoutesOf, Visits, FailDevice, CloseConn;
  }

  lemma RoutedFields(h: Hub, c: Conn, exec: string, op: string, r: string, via: Conn)
    requires c in h.clients
    ensures var h1 := Routed(h, c, exec, op, r, via); h1.net == h.net && h1.devices == h.devices && r in h1.issued
  {
  }

  /** Routes may have ended and connections been written to; all else is as it was. */
  predicate SameBeside(h: Hub, h': Hub) {
    && h' == h.(net := h'.net, wire := h'.wire, inflight := h'.inflight, requests := h'.requests, active := h'.active)
    && h.wire <= h'.wire && h'.net.Keys == h.net.Keys
  }

  lemma {:induction false} FailedAreGone(h: Hub, order: seq<string>, code: string)
    ensures var h' := FailDevice(h, order, code);
      && SameBeside(h, h')
      && forall r <- h'.inflight :: r in h.inflight && h'.inflight[r] == h.inflight[r] && r !in order
    decreases |order|
  {
    if order != [] {
      FirstFailed(h, order, code);
      FailedOne(h, order[0], code);
      FailedAreGone(FailOne(h, order[0], code), order[1..], code);
      assert order == [order[0]] + order[1..];
      hide FailOne, FailDevice;
    }
  }

  lemma FailedOne(h: Hub, r: string, code: string)
    ensures var h' := FailOne(h, r, code);
      && SameBeside(h, h') && r !in h'.inflight
      && forall q <- h'.inflight :: q in h.inflight && h'.inflight[q] == h.inflight[q]
  {
    if r in h.inflight {
      SendFields(h, h.inflight[r].client, O.Send(Err(h.inflight[r].request, code)), r);
      FinishFields(Answer(h, r, Err(h.inflight[r].request, code)).0, r);
      hide Put, Finish;
    }
  }

  /** A device that does not take an invoke is lost with all its routes. */
  lemma LostAtOnce(h: Hub, order: seq<string>, id: string, via: Conn)
    requires RoutesOf(h, id) <= (set r <- order) && id in h.devices
    ensures var h3 := CloseConn(FailDevice(h, order, DEVICE_OFFLINE), via);
      && id in h3.devices && h3.issued == h.issued
      && forall r <- h3.inflight :: h3.inflight[r].device != id && r in h.inflight && r !in order
  {
    FailedAreGone(h, order, DEVICE_OFFLINE);
    var h1 := FailDevice(h, order, DEVICE_OFFLINE);
    SendFields(h1, via, O.CloseIt, "");
    hide FailDevice, Put;
    forall r <- h1.inflight ensures h1.inflight[r].device != id {
      assert h.inflight[r].device == id ==> r in RoutesOf(h, id);
    }
  }

  lemma ReasonMeans(h: Hub, c: Conn, exec: string, op: string, env: Env)
    requires c in h.roles && h.roles[c].ClientRole? && Reason(h, c, exec, op, env) == "" && op != CANCEL
    ensures c in h.clients && h.roles[c].id in h.devices && h.devices[h.roles[c].id].conn.Some?
    ensures h.roles[c].id in h.access && h.clients[c].access.Matches(h.access[h.roles[c].id])
    ensures env.verdict == "" && env.route !in h.inflight && (op == HANDOFF_SUBMIT ==> env.proof)
    ensures |Using(h.inflight, h.clients[c].access.deviceUid)| < LIMIT
  {
    hide Using;
  }

  // ----- Frames from the device ------------------------------------------------------------------------

  /** What the caller is to be given of a device's frame, under its own request ID; an exit tells of what was lost. */
  function Given(route: Route, f: Frame): Frame {
    Frame(f.kind, route.request, f.op, f.code, f.data, f.truncated || (f.kind == Exit && route.trunc), f.rest)
  }

  /** What one frame may carry, and what is left of the route's 4 MiB. */
  predicate WithinBudget(route: Route, f: Frame) {
    IsOutput(f) ==> |f.data| <= 65536 && route.outBytes + |f.data| <= 4194304
  }

  /** The frame is put to the route's caller: when its outbox takes it, a terminal ends the route; when the outbox
      drops it, the route is marked; when it is closed, the caller is lost with all its routes. */
  predicate Handed(h: Hub, h': Hub, r: string, out: Frame) {
    && r in h.inflight && h.inflight[r].client in h.net
    && var route := h.inflight[r];
    var c := route.client;
    match O.Enqueue(h.net[c], out).1
    case Accepted =>
      if IsTerminal(out) then
        && h'.inflight == h.inflight - {r} && h'.requests == h.requests - {RequestKey(c, route.request)}
        && h'.net == Sent(h, c, out, r).net && h'.wire == Sent(h, c, out, r).wire
      else h' == Sent(h, c, out, r)
    case Dropped => h' == Sent(h.(inflight := h.inflight[r := route.(trunc := true)]), c, out, r)
    case Closed => c !in h'.clients && forall q <- h'.inflight :: h'.inflight[q].client != c
  }

  /** The route is marked as cut, and its budget is spent unless the frame alone was too large. */
  predicate Exceeded(h: Hub, h': Hub, r: string, f: Frame) {
    && r in h.inflight
    && var route := h.inflight[r];
    h' == h.(inflight := h.inflight[r :=
      route.(trunc := true, outBytes := if |f.data| > 65536 then route.outBytes else 4194304)])
  }

  /** A frame from the route's device that is within the budget is counted and put to the caller; output beyond the
      budget marks the route; frames for no route, or from another connection, change nothing. */
  lemma ForwardAnswers(h: Hub, from: Conn, f: Frame, order: seq<string>)
    requires Sane(h) && (f.exec in h.inflight ==> RoutesFor(h, h.inflight[f.exec].client) <= Members(order))
    ensures var h', r := Forward(h, from, f, order), f.exec;
      if r !in h.inflight || r !in h.issued || h.issued[r].via != from then h' == h
      else
        var route := h.inflight[r];
        && route.client in h.net
        && if !WithinBudget(route, f) then Exceeded(h, h', r, f)
           else
             var n := route.outBytes + if IsOutput(f) then |f.data| else 0;
             Handed(h.(inflight := h.inflight[r := route.(outBytes := n)]), h', r, Given(route, f))
  {
    var r := f.exec;
    if r in h.inflight {
      EndsAreConnected(h, r);
      hide Sane, Forward, Given, WithinBudget, Handed, Exceeded, RoutesFor;
      ForwardFrom(h, from, f, order, h.issued[r].via);
    } else {
      hide Sane, RoutesFor, Deliver;
    }
  }

  lemma ForwardFrom(h: Hub, from: Conn, f: Frame, order: seq<string>, via: Conn)
    requires f.exec in h.inflight && h.inflight[f.exec].client in h.net
    requires h.inflight[f.exec].device in h.devices && h.devices[h.inflight[f.exec].device].conn == Some(via)
    requires RoutesFor(h, h.inflight[f.exec].client) <= Members(order)
    ensures var h', r := Forward(h, from, f, order), f.exec;
      var route := h.inflight[r];
      if via != from then h' == h
      else if !WithinBudget(route, f) then Exceeded(h, h', r, f)
      else
        var n := route.outBytes + if IsOutput(f) then |f.data| else 0;
        Handed(h.(inflight := h.inflight[r := route.(outBytes := n)]), h', r, Given(route, f))
  {
    GivenIsPassed(h.inflight[f.exec], f);
    ForwardOnRoute(h, from, f, order, via);
    hide Forward, Budget, Given, WithinBudget, Handed, RoutesFor;
  }

  lemma GivenIsPassed(route: Route, f: Frame)
    ensures match Budget(route, f)
      case Withheld(later) =>
        && !WithinBudget(route, f) && later == route.(trunc := true, outBytes := later.outBytes)
        && later.outBytes == (if |f.data| > 65536 then route.outBytes else 4194304)
      case Passed(later, out) =>
        && WithinBudget(route, f) && out == Given(route, f)
        && later == route.(outBytes := route.outBytes + if IsOutput(f) then |f.data| else 0)
  {
  }

  lemma ForwardOnRoute(h: Hub, from: Conn, f: Frame, order: seq<string>, via: Conn)
    requires f.exec in h.inflight && h.inflight[f.exec].client in h.net
    requires h.inflight[f.exec].device in h.devices && h.devices[h.inflight[f.exec].device].conn == Some(via)
    requires RoutesFor(h, h.inflight[f.exec].client) <= Members(order)
    ensures var h', r := Forward(h, from, f, order), f.exec;
      if via != from then h' == h
      else
        match Budget(h.inflight[r], f)
        case Withheld(later) => h' == h.(inflight := h.inflight[r := later])
        case Passed(later, out) =>
          later.client == h.inflight[r].client && Handed(h.(inflight := h.inflight[r := later]), h', r, out)
  {
    var r := f.exec;
    BudgetKeeps(h.inflight[r], f);
    hide Budget, Deliver, Handed;
    match Budget(h.inflight[r], f)
    case Withheld(later) =>
    case Passed(later, out) =>
      var h1 := h.(inflight := h.inflight[r := later]);
      assert RoutesFor(h1, later.client) == RoutesFor(h, later.client);
      hide RoutesFor;
      DeliverAnswers(h1, r, out, order);
  }

  lemma DeliverAnswers(h: Hub, r: string, out: Frame, order: seq<string>)
    requires r in h.inflight && h.inflight[r].client in h.net && RoutesFor(h, h.inflight[r].client) <= Members(order)
    ensures Handed(h, Deliver(h, r, out, order), r, out)
  {
    var c := h.inflight[r].client;
    PutIsSent(h, c, out, r);
    SameCallers(h, c, out, r);
    hide Put, RoutesFor, CancelClient, RemoveClient, Finish;
    var h1 := Sent(h, c, out, r);
    match O.Enqueue(h.net[c], out).1
    case Closed => CallerIsLost(h1, c, order);
    case Accepted =>
      FinishIs(h1, r);
      hide Sent;
    case Dropped =>
  }

  lemma FinishIs(h: Hub, r: string)
    requires r in h.inflight
    ensures var h' := Finish(h, r);
      && h'.inflight == h.inflight - {r} && h'.requests == h.requests - {RequestKey(h.inflight[r].client, h.inflight[r].request)}
      && h'.net == h.net && h'.wire == h.wire
  {
  }

  lemma SameCallers(h: Hub, c: Conn, f: Frame, r: string)
    requires c in h.net
    ensures RoutesFor(Sent(h, c, f, r), c) == RoutesFor(h, c)
  {
  }

  lemma {:induction false} CancelledAreGone(h: Hub, order: seq<string>)
    ensures var h' := CancelClient(h, order);
      && h'.devices == h.devices && h'.clients == h.clients && h'.issued == h.issued
      && forall r <- h'.inflight :: r in h.inflight && h'.inflight[r] == h.inflight[r] && r !in order
    decreases |order|
  {
    if order != [] {
      FirstCancelled(h, order);
      CancelledOne(h, order[0]);
      CancelledAreGone(CancelOne(h, order[0]), order[1..]);
      assert order == [order[0]] + order[1..];
      hide CancelOne, CancelClient;
    }
  }

  lemma CancelledOne(h: Hub, r: string)
    ensures var h' := CancelOne(h, r);
      && h'.devices == h.devices && h'.clients == h.clients && h'.issued == h.issued && r !in h'.inflight
      && forall q <- h'.inflight :: q in h.inflight && h'.inflight[q] == h.inflight[q]
  {
    if r in h.inflight {
      var id := h.inflight[r].device;
      if id in h.devices && h.devices[id].conn.Some? {
        SendFields(h, h.devices[id].conn.value, O.Send(CancelFrame(r)), "");
      }
      FinishFields(CancelAtDevice(h, r), r);
      hide Put, Finish;
    }
  }

  lemma CallerIsLost(h: Hub, c: Conn, order: seq<string>)
    requires RoutesFor(h, c) <= Members(order)
    ensures var h' := RemoveClient(CancelClient(h, order), c);
      c !in h'.clients && forall q <- h'.inflight :: h'.inflight[q].client != c
  {
    CancelledAreGone(h, order);
    var h1 := CancelClient(h, order);
    SendFields(h1.(clients := h1.clients - {c}), c, O.CloseIt, "");
    hide Put, CancelClient;
    forall q <- h1.inflight ensures h1.inflight[q].client != c {
      assert h.inflight[q].client == c ==> q in RoutesFor(h, c);
    }
  }

  /** In every reachable state the handler takes the oldest frame of a device's queue and forwards it. */
  lemma HandlesForwards(events: seq<Event>, from: Conn, order: seq<string>)
    requires Possible(Run(Fresh, events), Handles(from, order))
    ensures var h := Run(Fresh, events);
      && from in h.inboxes && h.inboxes[from].frames != []
      && var inbox := h.inboxes[from];
         var first := inbox.frames[0];
         var h1 := h.(inboxes := h.inboxes[from := I.Inbox(inbox.frames[1..], inbox.bytes - first.bytes, 0)]);
         Step(h, Handles(from, order))
           == if IsOutput(first.frame) || IsTerminal(first.frame) then Forward(h1, from, first.frame, order) else h1
  {
    hide Run, RoutesOfCaller, Visits, Forward;
  }

  // ----- Connections that end --------------------------------------------------------------------------

  /** A caller that leaves takes its registration and its routes along, and each of them is cancelled at the very
      connection its invoke went out on. */
  lemma CallerLeaves(events: seq<Event>, c: Conn, order: seq<string>, r: string)
    requires var h := Run(Fresh, events);
      Possible(h, Drops(c, order)) && h.roles[c].ClientRole? && r in h.inflight && h.inflight[r].client == c
    ensures var h := Run(Fresh, events);
      var h' := Step(h, Drops(c, order));
      && c !in h'.clients && r !in h'.inflight
      && r in h.issued && Told(h, h', h.issued[r].via, Frame(Kind.Invoke, r, "cancel", "", "", false, 0), "")
      && (forall q <- h'.inflight :: q in h.inflight && h'.inflight[q] == h.inflight[q] && h.inflight[q].client != c)
  {
    var h := Run(Fresh, events);
    FreshIsSane();
    RunSane(Fresh, events);
    hide Run, Narrows;
    DropSteps(h, c, order);
    hide Possible, Step;
    EndsAreConnected(h, r);
    InRoutes(h, c, order, r);
    LostCallerStopsItsWork(h, order, r);
    hide Sane, Told, Visits, RoutesFor, RoutesAt, CancelClient;
    CallerDrops(h, c, order, r);
  }

  lemma DropSteps(h: Hub, c: Conn, order: seq<string>)
    requires Possible(h, Drops(c, order))
    ensures c in h.roles && Step(h, Drops(c, order)) == Drop(h, c, order)
    ensures Visits(order, if h.roles[c].DeviceRole? then RoutesAt(h, c) else RoutesFor(h, c))
  {
    hide Drop, RoutesAt, RoutesFor, Visits;
  }

  lemma InRoutes(h: Hub, c: Conn, order: seq<string>, r: string)
    requires r in h.inflight
    ensures Visits(order, RoutesFor(h, h.inflight[r].client)) ==> r in order
    ensures Visits(order, RoutesOf(h, h.inflight[r].device)) ==> r in order
  {
    assert r in RoutesFor(h, h.inflight[r].client) && r in RoutesOf(h, h.inflight[r].device);
  }

  lemma CallerDrops(h: Hub, c: Conn, order: seq<string>, r: string)
    requires c in h.roles && h.roles[c].ClientRole? && Visits(order, RoutesFor(h, c))
    requires r in h.inflight && h.inflight[r].client == c && r in h.issued
    requires Told(h, CancelClient(h, order), h.issued[r].via, CancelFrame(r), "")
    ensures var h' := Drop(h, c, order);
      && c !in h'.clients && r !in h'.inflight
      && Told(h, h', h.issued[r].via, CancelFrame(r), "")
      && (forall q <- h'.inflight :: q in h.inflight && h'.inflight[q] == h.inflight[q] && h.inflight[q].client != c)
  {
    CancelledAreGone(h, order);
    var h1 := CancelClient(h, order);
    forall q <- h1.inflight ensures h.inflight[q].client != c {
      InRoutes(h, c, order, q);
    }
    SameTold(h, h1, Drop(h, c, order), h.issued[r].via, CancelFrame(r), "");
    hide Told, RoutesFor, Visits, CancelClient;
  }

  lemma SameTold(a: Hub, b: Hub, c: Hub, k: Conn, f: Frame, r: string)
    requires Told(a, b, k, f, r) && b.wire == c.wire
    ensures Told(a, c, k, f, r)
  {
  }

  /** A device that leaves goes offline with all its routes, and each of their callers is sent the error. */
  lemma DeviceLeaves(events: seq<Event>, c: Conn, order: seq<string>, r: string)
    requires var h := Run(Fresh, events);
      && Possible(h, Drops(c, order)) && h.roles[c].DeviceRole? && r in h.inflight && r in h.issued && h.issued[r].via == c
    ensures var h := Run(Fresh, events);
      var h', id := Step(h, Drops(c, order)), h.inflight[r].device;
      && id in h'.devices && h'.devices[id].conn.None? && !h'.devices[id].online
      && r !in h'.inflight
      && Told(h, h', h.issued[r].client, Frame(Kind.Error, h.issued[r].request, "", "device_offline", "", false, 0), r)
      && (forall q <- h'.inflight :: q in h.inflight && h'.inflight[q] == h.inflight[q] && h.inflight[q].device != id)
  {
    var h := Run(Fresh, events);
    FreshIsSane();
    RunSane(Fresh, events);
    hide Run, Narrows;
    DropSteps(h, c, order);
    hide Possible, Step;
    EndsAreConnected(h, r);
    SlotIsItsDevice(h, h.inflight[r].device, c);
    InRoutes(h, c, order, r);
    LostDeviceTellsItsCallers(h, order, DEVICE_OFFLINE, r);
    hide Sane, Told, Visits, RoutesFor, FailDevice;
    DeviceDrops(h, c, order, r);
  }

  lemma SlotIsItsDevice(h: Hub, id: string, c: Conn)
    requires Sane(h) && id in h.devices && h.devices[id].conn == Some(c)
    ensures DeviceOf(h, c) == Some(id)
  {
    hide Inverse, CallersHeld, DevicesHeld, IssuesHeld, Counted, ClientRoles, GateRoles, Joiners, IssueRoles, Known, Records, Wired;
  }

  lemma DeviceDrops(h: Hub, c: Conn, order: seq<string>, r: string)
    requires c in h.roles && h.roles[c].DeviceRole? && Visits(order, RoutesAt(h, c))
    requires r in h.inflight && r in h.issued && DeviceOf(h, c) == Some(h.inflight[r].device)
    requires Told(h, FailDevice(h, order, DEVICE_OFFLINE), h.issued[r].client, Err(h.issued[r].request, DEVICE_OFFLINE), r)
    ensures var h', id := Drop(h, c, order), h.inflight[r].device;
      && id in h'.devices && h'.devices[id].conn.None? && !h'.devices[id].online
      && r !in h'.inflight
      && Told(h, h', h.issued[r].client, Err(h.issued[r].request, DEVICE_OFFLINE), r)
      && (forall q <- h'.inflight :: q in h.inflight && h'.inflight[q] == h.inflight[q] && h.inflight[q].device != id)
  {
    var id := h.inflight[r].device;
    FailedAreGone(h, order, DEVICE_OFFLINE);
    hide FailDevice;
    var h1 := FailDevice(h, order, DEVICE_OFFLINE);
    forall q <- h1.inflight ensures h.inflight[q].device != id {
      InRoutes(h, c, order, q);
    }
    SameTold(h, h1, Drop(h, c, order), h.issued[r].client, Err(h.issued[r].request, DEVICE_OFFLINE), r);
    hide Told, RoutesOf, Visits;
  }

  // ----- Renewals --------------------------------------------------------------------------------------

  /** A route may be renewed exactly as long as it is a foreground execution nobody has cancelled, over the connection
      its invoke went out on, while both connections are open, its device accepts invocations, and its caller's
      binding is the device's. */
  predicate Renewable(h: Hub, from: Conn, r: string) {
    && r in h.inflight && r in h.issued && h.issued[r].via == from
    && var route := h.inflight[r];
       && route.operation == "exec" && !route.cancelled && route.device in h.devices
       && h.devices[route.device].record.inbound
       && route.binding.access.Matches(h.devices[route.device].record.Bound())
       && from in h.net && !h.net[from].cancelled && route.client in h.net && !h.net[route.client].cancelled
  }

  lemma LiveExactly(h: Hub, from: Conn, r: string)
    requires Sane(h)
    ensures Live(h, from, r) <==> Renewable(h, from, r)
  {
    if r in h.inflight {
      EndsAreConnected(h, r);
      RouteIsHeld(h, r);
    }
    hide Sane, Binding.Matches, Device.Bound;
  }

  lemma RouteIsHeld(h: Hub, r: string)
    requires Sane(h) && r in h.inflight
    ensures var route := h.inflight[r];
      && route.client in h.clients && route.device in h.devices && h.devices[route.device].ready
      && route.device in h.access && h.access[route.device] == h.devices[route.device].record.Bound()
  {
    hide Inverse, IssuesHeld, Counted, SlotRoles, ClientRoles, GateRoles, Joiners, IssueRoles, Known, Wired, StoreOk, RecordsAgree,
         RoutesAgree, GatesAgree, Drawn;
  }

  /** In every reachable state a renewable route's request goes to the authority, and any other is refused. */
  lemma RenewalBegins(events: seq<Event>, from: Conn, r: string)
    requires from in Run(Fresh, events).net
    ensures var h := Run(Fresh, events);
      Step(h, RenewsBegin(from, r)) ==
        if Renewable(h, from, r) then h.(renewals := h.renewals + {Renewal(from, r)})
        else Sent(h, from, Frame(Kind.ExecutionLease, "", "", "unauthorized", "", false, 0), "")
  {
    var h := Run(Fresh, events);
    FreshIsSane();
    RunSane(Fresh, events);
    LiveExactly(h, from, r);
    hide Run, Narrows, Sane, Renewable, Live, Sent, Step;
    RenewalSteps(h, from, r, 0, "", false);
  }

  lemma RenewalSteps(h: Hub, from: Conn, r: string, ms: int, code: string, late: bool)
    requires from in h.net
    ensures Step(h, RenewsBegin(from, r)) ==
      if Live(h, from, r) then h.(renewals := h.renewals + {Renewal(from, r)})
      else Sent(h, from, Reply(ExecutionLease, UNAUTHORIZED, 0), "")
    ensures Step(h, RenewsCommit(from, r, ms, code, late)) == RenewCommit(h, from, r, ms, code, late)
  {
    PutIsSent(h, from, Reply(ExecutionLease, UNAUTHORIZED, 0), "");
    hide Live, Put, Sent, RenewCommit;
  }

  lemma CommitAnswers(h: Hub, from: Conn, r: string, ms: int, code: string, late: bool)
    requires from in h.net && Renewal(from, r) in h.renewals
    ensures var h1 := h.(renewals := h.renewals - {Renewal(from, r)});
      var said := if !Live(h, from, r) then UNAUTHORIZED else if late then RELAY_ERROR else code;
      RenewCommit(h, from, r, ms, code, late) ==
        Sent(if said == "" then h1.(granted := h.granted + [Grant(from, r, ms)]) else h1, from, Reply(ExecutionLease, said, 0), "")
  {
    var h1 := h.(renewals := h.renewals - {Renewal(from, r)});
    var said := if !Live(h, from, r) then UNAUTHORIZED else if late then RELAY_ERROR else code;
    PutIsSent(h1, from, Reply(ExecutionLease, said, 0), "");
    PutIsSent(h1.(granted := h.granted + [Grant(from, r, ms)]), from, Reply(ExecutionLease, said, 0), "");
    assert Live(h1, from, r) == Live(h, from, r);
    hide Live, Put, Sent;
  }

  /** And the authority's answer becomes a lease exactly when the route is renewable still. */
  lemma RenewalIsGranted(events: seq<Event>, from: Conn, r: string, ms: int, code: string, late: bool)
    requires var h := Run(Fresh, events); from in h.net && Renewal(from, r) in h.renewals
    ensures var h := Run(Fresh, events);
      var h1 := h.(renewals := h.renewals - {Renewal(from, r)});
      var said := if !Renewable(h, from, r) then "unauthorized" else if late then "relay_error" else code;
      Step(h, RenewsCommit(from, r, ms, code, late)) ==
        Sent(if said == "" then h1.(granted := h.granted + [Grant(from, r, ms)]) else h1,
             from, Frame(Kind.ExecutionLease, "", "", said, "", false, 0), "")
  {
    var h := Run(Fresh, events);
    FreshIsSane();
    RunSane(Fresh, events);
    LiveExactly(h, from, r);
    hide Run, Narrows, Sane, Renewable, Live, Sent, Step, RenewCommit;
    RenewalSteps(h, from, r, ms, code, late);
    CommitAnswers(h, from, r, ms, code, late);
  }

  // ----- Arrivals ----------------------------------------------------------------------------------------

  /** A frame from an open device connection is queued for the handler, or dropped with a mark on its route, or ends the
      reading and the connection; whatever is not lost with the connection has been heard. */
  lemma ArrivalAnswers(h: Hub, c: Conn, f: Frame)
    requires Possible(h, Arrives(c, f))
    ensures c in h.inboxes && c in h.net && Arrived(h, Step(h, Arrives(c, f)), c, f)
  {
    ArrivalSteps(h, c, f);
    hide Possible, Step, Arrive, Arrived;
    ArriveAnswers(h, c, f);
  }

  lemma ArrivalSteps(h: Hub, c: Conn, f: Frame)
    requires Possible(h, Arrives(c, f))
    ensures c in h.inboxes && c in h.net && Step(h, Arrives(c, f)) == Arrive(h, c, f)
  {
    hide Arrive;
  }

  predicate Arrived(h: Hub, h': Hub, c: Conn, f: Frame) {
    && c in h.inboxes && c in h.net
    && var (i, result) := I.Offer(h.inboxes[c], f);
      var h1 := h.(inboxes := h.inboxes[c := i], heard := h.heard + [Heard(c, f)]);
      match result
      case Queued => h' == h1
      case OutputDropped =>
        if f.exec in h.inflight && h.inflight[f.exec].device in h.devices && h.devices[h.inflight[f.exec].device].conn == Some(c)
        then h' == h1.(inflight := h.inflight[f.exec := h.inflight[f.exec].(trunc := true)]) else h' == h1
      case Overloaded =>
        && c in h'.deaf && h'.heard == h.heard && c in h'.net && h'.net[c] == h.net[c].(cancelled := true)
        && h'.inflight == h.inflight
  }

  lemma ArriveAnswers(h: Hub, c: Conn, f: Frame)
    requires c in h.inboxes && c in h.net
    ensures Arrived(h, Arrive(h, c, f), c, f)
  {
    hide I.Offer, Put, O.Enqueue;
    var h2 := h.(inboxes := h.inboxes[c := I.Offer(h.inboxes[c], f).0], deaf := h.deaf + {c});
    PutFields(h2, c, O.CancelIt, "");
    CancelStep(h.net[c]);
    hide O.Step;
  }

  lemma CancelStep(b: O.Outbox)
    ensures O.Step(b, O.CancelIt) == b.(cancelled := true)
  {
  }

  /** A new connection has an empty outbox and an empty reader, and stands for nobody yet. */
  lemma ConnectionAnswers(h: Hub)
    ensures var h', c := Step(h, Connect), h.serial;
      && c in h'.net && h'.net[c] == O.EmptyOutbox && c in h'.inboxes && h'.inboxes[c] == I.EmptyInbox
      && h' == h.(net := h.net[c := h'.net[c]], inboxes := h.inboxes[c := h'.inboxes[c]], serial := h'.serial)
      && h.serial < h'.serial
  {
  }
}
