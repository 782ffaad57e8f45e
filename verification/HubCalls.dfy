/** Invocations, cancellations and the frames a device sends back. */
module HubCalls {
  import opened Prelude
  import opened Devices
  import opened Frames
  import opened HubModel
  import opened HubRouting
  import opened HubRecords
  import opened HubWire
  import opened HubLease
  import opened HubSteps
  import O = OutboxModel
  import I = InboxModel
  import M = AdmissionModel

  /** Everything but what connections have sent us and the renewals under way. */
  predicate OnlyReaders(h: Hub, h': Hub) {
    && h' == h.(inboxes := h'.inboxes, heard := h'.heard, deaf := h'.deaf, renewals := h'.renewals)
    && h'.inboxes.Keys == h.inboxes.Keys
  }

  lemma ReadersGood(h: Hub, h': Hub)
    requires Sane(h) && OnlyReaders(h, h')
    ensures Sane(h') && Narrows(h, h') && Discreet(h, h')
  {
    SilenceIsDiscreet(h, h');
    hide Wired, Narrows, Records, Discreet;
    assert Known(h') && GateRoles(h'.gates, h.devices, h.roles) && Joiners(h'.gates, h.clients);
    hide Known, GateRoles, Joiners, IssueRoles, Inverse, CallersHeld, DevicesHeld, IssuesHeld, Counted, SlotRoles, ClientRoles;
    FrameKeepsRouting(h, h');
    FrameKeepsRecords(h, h');
    FewerRoutesKeepWired(h, h');
    RoutesNarrow(h, h');
  }

  // ----- Marks on a route ------------------------------------------------------------------------------

  lemma SetRouteGood(h: Hub, r: string, route: Route)
    requires Sane(h) && r in h.inflight && SameRoute(h.inflight[r], route)
    ensures var h' := SetRoute(h, r, route); Sane(h') && Narrows(h, h') && Discreet(h, h')
  {
    hide Routing, Records, Wired, Narrows, Discreet;
    var h' := SetRoute(h, r, route);
    SilenceIsDiscreet(h, h');
    RoutesKeepRouting(h, h'.inflight);
    FinishKeepsRecords(h, h', h'.inflight);
    FewerRoutesKeepWired(h, h');
    RoutesNarrow(h, h');
  }

  lemma MarkIsQuiet(h: Hub, r: string, route: Route)
    requires r in h.inflight && route.trunc == h.inflight[r].trunc && route.outBytes == h.inflight[r].outBytes
    ensures Quiet(h, SetRoute(h, r, route))
  {
    hide Quiet;
    SilenceIsQuiet(h, SetRoute(h, r, route));
  }

  lemma CancelTalks(h: Hub, from: Conn, exec: string)
    requires Sane(h)
    ensures Sane(Cancel(h, from, exec)) && Talks(h, Cancel(h, from, exec))
  {
    var key := RequestKey(from, exec);
    if key !in h.requests || h.requests[key] !in h.inflight || h.inflight[h.requests[key]].client != from {
      hide Sane, Talks, Put;
      PutTalks(h, from, O.Send(Err(exec, UNKNOWN_EXEC)));
    } else {
      hide Sane, Moves, Talks, Cancel;
      CancelMoves(h, from, exec);
      MovesTalk(h, Cancel(h, from, exec));
    }
  }

  lemma MovesTalk(h: Hub, h': Hub)
    requires Moves(h, h')
    ensures Talks(h, h')
  {
    hide Talks, Discreet;
  }

  /** Cancelling a request in flight answers nobody. */
  lemma CancelMoves(h: Hub, from: Conn, exec: string)
    requires Sane(h)
    requires var key := RequestKey(from, exec);
      key in h.requests && h.requests[key] in h.inflight && h.inflight[h.requests[key]].client == from
    ensures Sane(Cancel(h, from, exec)) && Moves(h, Cancel(h, from, exec))
  {
    hide Sane, Quiet, Narrows, Discreet, CancelAtDevice;
    var r := h.requests[RequestKey(from, exec)];
    var route := h.inflight[r].(cancelled := true);
    SetRouteGood(h, r, route);
    MarkIsQuiet(h, r, route);
    var h1 := SetRoute(h, r, route);
    CancelAtDeviceMoves(h1, r);
    MovesOn(h, h1, CancelAtDevice(h1, r));
  }

  // ----- A new route -----------------------------------------------------------------------------------

  lemma AddFields(h: Hub, from: Conn, target: string, exec: string, op: string, r: string)
    requires from in h.clients && target in h.devices && h.devices[target].conn.Some?
    ensures var h' := AddRoute(h, from, target, exec, op, r);
      && h' == h.(requests := h'.requests, active := h'.active, inflight := h'.inflight, issued := h'.issued)
      && h'.inflight == h.inflight[r := Route(exec, target, from, 0, false, h.clients[from], op, false)]
      && h'.issued == h.issued[r := Issue(from, exec, h.devices[target].conn.value)]
  {
  }

  lemma AddMoves(h: Hub, from: Conn, target: string, exec: string, op: string, r: string)
    requires Sane(h) && Admits(h, from, target, exec, r)
    ensures from in h.clients && target in h.devices && h.devices[target].conn.Some?
    ensures var h' := AddRoute(h, from, target, exec, op, r); Sane(h') && Moves(h, h')
  {
    hide Admits, Routing, Records, Wired, Moves, AddRoute;
    AdmitsMeans(h, from, target, exec, r);
    AddKeepsRouting(h, from, target, exec, op, r);
    AddKeepsRecords(h, from, target, exec, op, r);
    AddIsWired(h, from, target, exec, op, r);
    AddIsQuiet(h, from, target, exec, op, r);
  }

  lemma AddIsWired(h: Hub, from: Conn, target: string, exec: string, op: string, r: string)
    requires Wired(h) && from in h.clients && target in h.devices && h.devices[target].conn.Some? && r !in h.issued && r != ""
    ensures Wired(AddRoute(h, from, target, exec, op, r))
  {
    hide Wired, AddRoute;
    AddFields(h, from, target, exec, op, r);
    var h' := AddRoute(h, from, target, exec, op, r);
    assert h'.inflight.Keys == h.inflight.Keys + {r};
    AddKeepsWired(h, h', r, Issue(from, exec, h.devices[target].conn.value));
  }

  lemma AddIsQuiet(h: Hub, from: Conn, target: string, exec: string, op: string, r: string)
    requires Routing(h) && Wired(h) && from in h.clients && target in h.devices && h.devices[target].conn.Some?
    requires FreshRoute(h, r)
    ensures Moves(h, AddRoute(h, from, target, exec, op, r))
  {
    hide Routing, Wired, Narrows, Discreet, AddRoute, Caused, FreshRoute, QuietFor;
    AddFields(h, from, target, exec, op, r);
    NoEmptyRoute(h);
    FreshMeans(h, r);
    var h' := AddRoute(h, from, target, exec, op, r);
    AddNarrows(h, h', r, h'.inflight[r], h'.issued[r]);
    SilenceIsDiscreet(h, h');
    UnissuedIsUnheard(h, r);
    forall q <- h.issued ensures QuietFor(h, h', q) {
      SameIsQuiet(h, h', q);
    }
  }

  lemma FreshMeans(h: Hub, r: string)
    requires FreshRoute(h, r)
    ensures r !in h.issued && r != ""
  {
  }

  lemma SameIsQuiet(h: Hub, h': Hub, q: string)
    requires h'.wire == h.wire && (q in h'.inflight ==> q in h.inflight && h'.inflight[q] == h.inflight[q])
    ensures QuietFor(h, h', q)
  {
    hide Caused;
  }

  lemma UnissuedIsUnheard(h: Hub, r: string)
    requires Wired(h) && r !in h.issued && r != ""
    ensures Caused(h.wire, r) == []
  {
    forall s <- h.wire ensures s.route != r {
      assert SignalOk(s, h.issued);
    }
    NothingCaused(h.wire, r);
  }

  lemma {:induction false} NothingCaused(wire: seq<Signal>, r: string)
    requires forall s <- wire :: s.route != r
    ensures Caused(wire, r) == []
  {
    if wire != [] {
      assert wire[|wire| - 1] in wire;
      NothingCaused(wire[..|wire| - 1], r);
    }
  }

  lemma DispatchMoves(h: Hub, from: Conn, target: string, exec: string, op: string, env: Env)
    requires Sane(h) && Admits(h, from, target, exec, env.route)
    requires Visits(env.order, RoutesOf(h, target) + {env.route})
    ensures from in h.clients && target in h.devices && h.devices[target].conn.Some?
    ensures Sane(Dispatch(h, from, target, exec, op, env)) && Moves(h, Dispatch(h, from, target, exec, op, env))
  {
    AddMoves(h, from, target, exec, op, env.route);
    SlotIsDevice(h, target);
    hide Sane, Moves, Put, FailDevice, Offline, Admits;
    var device := h.devices[target].conn.value;
    var h1 := AddRoute(h, from, target, exec, op, env.route);
    var e := O.Send(Frame(Frames.Invoke, env.route, op, "", "", false, env.rest));
    PutMoves(h1, device, e);
    var (h2, sent) := Put(h1, device, e, "");
    MovesOn(h, h1, h2);
    if sent != O.Accepted {
      var h3 := FailDevice(h2, env.order, DEVICE_OFFLINE);
      FailDeviceMoves(h2, env.order, DEVICE_OFFLINE);
      MovesOn(h, h2, h3);
      assert RoutesOf(h2, target) <= Members(env.order);
      NoRoutesLeft(h2, h3, env.order, target);
      PutMoves(h3, device, O.CloseIt);
      var h4 := CloseConn(h3, device);
      MovesOn(h, h3, h4);
      assert RoutesOf(h4, target) == RoutesOf(h3, target);
      OfflineMoves(h4, target);
      MovesOn(h, h4, Offline(h4, target));
    }
  }

  /** A route ID as the random source gives it. */
  predicate RouteDrawn(h: Hub, r: string) {
    FreshRoute(h, r) || r in h.inflight
  }

  lemma InvokeTalks(h: Hub, from: Conn, target: string, exec: string, op: string, env: Env)
    requires Sane(h) && RouteDrawn(h, env.route) && Visits(env.order, RoutesOf(h, target) + {env.route})
    ensures Sane(HandleInvoke(h, from, target, exec, op, env)) && Talks(h, HandleInvoke(h, from, target, exec, op, env))
  {
    hide Sane, Moves, Talks, Put, Cancel, Dispatch, Refusal, Visits, FreshRoute;
    Stays(h);
    MovesTalk(h, h);
    CancelTalks(h, from, exec);
    PutTalks(h, from, O.Send(Nack(exec, env.verdict)));
    PutTalks(h, from, O.Send(Nack(exec, Refusal(h, from, target, exec))));
    PutTalks(h, from, O.Send(Nack(exec, RELAY_ERROR)));
    if Refusal(h, from, target, exec) == "" && env.route !in h.inflight {
      DispatchMoves(h, from, target, exec, op, env);
      MovesTalk(h, Dispatch(h, from, target, exec, op, env));
    }
  }

  lemma InvokedTalks(h: Hub, c: Conn, exec: string, op: string, env: Env)
    requires Sane(h) && c in h.roles && RouteDrawn(h, env.route)
    requires Visits(env.order, RoutesOf(h, h.roles[c].id) + {env.route})
    ensures Sane(Invoked(h, c, exec, op, env)) && Talks(h, Invoked(h, c, exec, op, env))
  {
    hide Sane, Moves, Talks, Put, HandleInvoke, Visits, RouteDrawn;
    Stays(h);
    MovesTalk(h, h);
    PutTalks(h, c, O.Send(Nack(exec, UNAUTHORIZED)));
    InvokeTalks(h, c, h.roles[c].id, exec, op, env);
  }

  // ----- Frames from the device ------------------------------------------------------------------------

  /** Only route `r` may have been heard of. */
  ghost predicate QuietBut(h: Hub, h': Hub, r: string) {
    && h'.heard == h.heard && h'.deaf == h.deaf && h'.inboxes == h.inboxes && h'.issued == h.issued
    && forall q <- h.issued :: q != r ==> QuietFor(h, h', q)
  }

  lemma QuietButOn(a: Hub, b: Hub, c: Hub, r: string)
    requires QuietBut(a, b, r) && QuietBut(b, c, r)
    ensures QuietBut(a, c, r)
  {
    hide Caused;
    forall q <- a.issued | q != r ensures QuietFor(a, c, q) {
      assert QuietFor(a, b, q) && QuietFor(b, c, q);
    }
  }

  lemma QuietIsQuietBut(h: Hub, h': Hub, r: string)
    requires Quiet(h, h') && h'.inboxes == h.inboxes && h'.issued == h.issued
    ensures QuietBut(h, h', r)
  {
    hide QuietFor;
  }

  lemma SetIsQuietBut(h: Hub, r: string, route: Route)
    requires r in h.inflight
    ensures QuietBut(h, SetRoute(h, r, route), r)
  {
    hide Caused;
  }

  lemma FinishIsQuietBut(h: Hub, r: string)
    ensures QuietBut(h, Finish(h, r), r)
  {
    FinishFields(h, r);
    hide Caused, Finish;
  }

  lemma AnswerIsQuietBut(h: Hub, r: string, f: Frame)
    requires r in h.inflight
    ensures QuietBut(h, Answer(h, r, f).0, r)
  {
    var c := h.inflight[r].client;
    PutFields(h, c, O.Send(f), r);
    hide Caused, Put, O.Step, QuietFor;
    var h' := Answer(h, r, f).0;
    forall q <- h.issued | q != r ensures QuietFor(h, h', q) {
      OthersUnheard(h, h', c, f, r, q);
    }
  }

  lemma OthersUnheard(h: Hub, h': Hub, c: Conn, f: Frame, r: string, q: string)
    requires h'.inflight == h.inflight && q != r
    requires h'.wire == h.wire || (c in h.net && h'.wire == h.wire + [Added(h, c, O.Send(f), r)])
    ensures QuietFor(h, h', q)
  {
    if h'.wire != h.wire {
      OneMoreSignal(h.wire, Added(h, c, O.Send(f), r));
    }
    hide Caused, Put, Added;
  }

  /** An answer that is not a queued terminal. */
  lemma AnswerGood(h: Hub, r: string, f: Frame)
    requires Sane(h) && r in h.inflight && f.exec == h.inflight[r].request
    requires !(IsTerminal(f) && Answer(h, r, f).1 == O.Accepted)
    ensures var h' := Answer(h, r, f).0; Sane(h') && Narrows(h, h') && Discreet(h, h') && OnlySends(h, h')
  {
    hide Routing, Records, Wired, Narrows, Discreet, Put, MayPut;
    var c := h.inflight[r].client;
    NoEmptyRoute(h);
    MayAnswer(h, r, f);
    SendFields(h, c, O.Send(f), r);
    SendKeepsRest(h, Answer(h, r, f).0);
    PutKeepsWired(h, c, O.Send(f), r);
    PutNarrows(h, c, O.Send(f), r);
    PutIsDiscreet(h, c, O.Send(f), r);
  }

  ghost predicate Steps(h: Hub, h': Hub, r: string) {
    Narrows(h, h') && QuietBut(h, h', r) && Discreet(h, h')
  }

  lemma StepsOn(a: Hub, b: Hub, c: Hub, r: string)
    requires Steps(a, b, r) && Steps(b, c, r)
    ensures Steps(a, c, r)
  {
    hide Narrows, QuietBut, Discreet;
    NarrowsOn(a, b, c);
    QuietButOn(a, b, c, r);
    DiscreetOn(a, b, c);
  }

  /** The caller's outbox is closed: all its routes are cancelled and it is forgotten. */
  lemma LoseClientSteps(h: Hub, c: Conn, order: seq<string>, r: string)
    requires Sane(h) && RoutesFor(h, c) <= Members(order)
    ensures var h' := RemoveClient(CancelClient(h, order), c); Sane(h') && Steps(h, h', r)
  {
    hide Sane, Quiet, Narrows, Discreet, CancelClient, RemoveClient, QuietBut;
    var h1 := CancelClient(h, order);
    CancelClientMoves(h, order);
    NoCallsLeft(h, h1, order, c);
    RemoveClientMoves(h1, c);
    MovesOn(h, h1, RemoveClient(h1, c));
    QuietIsQuietBut(h, RemoveClient(h1, c), r);
  }

  lemma BudgetKeeps(route: Route, f: Frame)
    ensures match Budget(route, f)
      case Withheld(later) => SameRoute(route, later) && IsOutput(f)
      case Passed(later, out) =>
        SameRoute(route, later) && out.exec == route.request && out.kind == f.kind && later.trunc == route.trunc
  {
  }

  lemma ForwardSteps(h: Hub, from: Conn, f: Frame, order: seq<string>)
    requires Sane(h)
    requires f.exec in h.inflight ==> RoutesFor(h, h.inflight[f.exec].client) <= Members(order)
    ensures Sane(Forward(h, from, f, order)) && Steps(h, Forward(h, from, f, order), f.exec)
  {
    hide Sane, Narrows, Discreet, QuietBut, Budget, RoutesFor, Deliver;
    var r := f.exec;
    if r !in h.inflight || h.inflight[r].device !in h.devices || h.devices[h.inflight[r].device].conn != Some(from) {
      NothingSteps(h, r);
    } else {
      BudgetKeeps(h.inflight[r], f);
      match Budget(h.inflight[r], f)
      case Withheld(route) =>
        SetRouteGood(h, r, route);
        SetIsQuietBut(h, r, route);
      case Passed(route, out) =>
        SetRouteGood(h, r, route);
        SetIsQuietBut(h, r, route);
        var h0 := SetRoute(h, r, route);
        assert RoutesFor(h0, route.client) == RoutesFor(h, route.client) by { SameCalls(h, r, route); }
        PassedSteps(h0, r, out, order);
        StepsOn(h, h0, Deliver(h0, r, out, order), r);
    }
  }

  lemma SameCalls(h: Hub, r: string, route: Route)
    requires r in h.inflight && route.client == h.inflight[r].client
    ensures RoutesFor(SetRoute(h, r, route), route.client) == RoutesFor(h, route.client)
  {
  }

  lemma NothingSteps(h: Hub, r: string)
    ensures Steps(h, h, r)
  {
    hide Live, Caused;
  }

  lemma PassedSteps(h: Hub, r: string, out: Frame, order: seq<string>)
    requires Sane(h) && r in h.inflight && out.exec == h.inflight[r].request
    requires RoutesFor(h, h.inflight[r].client) <= Members(order)
    ensures Sane(Deliver(h, r, out, order)) && Steps(h, Deliver(h, r, out, order), r)
  {
    hide Sane, Steps, Answer, Finish, CancelClient, RemoveClient, RoutesFor;
    match Answer(h, r, out).1
    case Dropped => DroppedSteps(h, r, out);
    case Closed => ClosedSteps(h, r, out, order);
    case Accepted => if IsTerminal(out) { EndSteps(h, r, out); } else { AcceptedSteps(h, r, out); }
  }

  lemma AcceptedSteps(h: Hub, r: string, out: Frame)
    requires Sane(h) && r in h.inflight && out.exec == h.inflight[r].request
    requires !(IsTerminal(out) && Answer(h, r, out).1 == O.Accepted)
    ensures var h' := Answer(h, r, out).0; Sane(h') && Steps(h, h', r) && OnlySends(h, h')
  {
    hide Sane, Narrows, Discreet, QuietBut, Put;
    AnswerIsQuietBut(h, r, out);
    AnswerGood(h, r, out);
  }

  lemma EndSteps(h: Hub, r: string, out: Frame)
    requires Sane(h) && r in h.inflight && out.exec == h.inflight[r].request
    ensures var h' := Finish(Answer(h, r, out).0, r); Sane(h') && Steps(h, h', r)
  {
    hide Sane, Narrows, Discreet, QuietBut, Put, Finish;
    var h1 := Answer(h, r, out).0;
    AnswerIsQuietBut(h, r, out);
    EndGood(h, r, out);
    FinishIsQuietBut(h1, r);
    QuietButOn(h, h1, Finish(h1, r), r);
  }

  lemma DroppedSteps(h: Hub, r: string, out: Frame)
    requires Sane(h) && r in h.inflight && out.exec == h.inflight[r].request && Answer(h, r, out).1 == O.Dropped
    ensures var h' := SetRoute(Answer(h, r, out).0, r, h.inflight[r].(trunc := true)); Sane(h') && Steps(h, h', r)
  {
    hide Sane, Narrows, Discreet, QuietBut, Answer;
    AcceptedSteps(h, r, out);
    var h1 := Answer(h, r, out).0;
    var route := h.inflight[r].(trunc := true);
    SetRouteGood(h1, r, route);
    SetIsQuietBut(h1, r, route);
    StepsOn(h, h1, SetRoute(h1, r, route), r);
  }

  lemma ClosedSteps(h: Hub, r: string, out: Frame, order: seq<string>)
    requires Sane(h) && r in h.inflight && out.exec == h.inflight[r].request && Answer(h, r, out).1 == O.Closed
    requires RoutesFor(h, h.inflight[r].client) <= Members(order)
    ensures var h' := RemoveClient(CancelClient(Answer(h, r, out).0, order), h.inflight[r].client);
      Sane(h') && Steps(h, h', r)
  {
    hide Sane, Steps, Answer, CancelClient, RemoveClient;
    AcceptedSteps(h, r, out);
    var h1 := Answer(h, r, out).0;
    var c := h.inflight[r].client;
    assert RoutesFor(h1, c) == RoutesFor(h, c);
    LoseClientSteps(h1, c, order, r);
    StepsOn(h, h1, RemoveClient(CancelClient(h1, order), c), r);
  }

  lemma NoteDroppedSteps(h: Hub, from: Conn, f: Frame)
    requires Sane(h)
    ensures Sane(NoteDropped(h, from, f)) && Steps(h, NoteDropped(h, from, f), f.exec)
  {
    hide Sane, Narrows, Discreet, QuietBut;
    NothingSteps(h, f.exec);
    if f.exec in h.inflight {
      var route := h.inflight[f.exec].(trunc := true);
      SetRouteGood(h, f.exec, route);
      SetIsQuietBut(h, f.exec, route);
    }
  }

  lemma ArriveGood(h: Hub, from: Conn, f: Frame)
    requires Sane(h) && from in h.inboxes
    ensures Sane(Arrive(h, from, f)) && Narrows(h, Arrive(h, from, f)) && Discreet(h, Arrive(h, from, f))
  {
    hide Sane, Narrows, Discreet, NoteDropped, Put, I.Offer;
    var (inbox, result) := I.Offer(h.inboxes[from], f);
    var h1 := h.(inboxes := h.inboxes[from := inbox]);
    assert h1.inboxes.Keys == h.inboxes.Keys;
    var h2 := h1.(heard := h.heard + [Heard(from, f)]);
    var h3 := h1.(deaf := h.deaf + {from});
    ReadersGood(h, h2);
    ReadersGood(h, h3);
    NoteDroppedSteps(h2, from, f);
    NarrowsOn(h, h2, NoteDropped(h2, from, f));
    DiscreetOn(h, h2, NoteDropped(h2, from, f));
    PutMoves(h3, from, O.CancelIt);
    NarrowsOn(h, h3, Put(h3, from, O.CancelIt, "").0);
    DiscreetOn(h, h3, Put(h3, from, O.CancelIt, "").0);
  }

  lemma ProcessGood(h: Hub, from: Conn, order: seq<string>)
    requires Sane(h) && from in h.inboxes && h.inboxes[from].frames != []
    requires Visits(order, RoutesOfCaller(h, from))
    ensures Sane(Process(h, from, order)) && Narrows(h, Process(h, from, order)) && Discreet(h, Process(h, from, order))
  {
    hide Sane, Narrows, Discreet, Forward, QuietBut;
    var f := h.inboxes[from].frames[0].frame;
    var h1 := h.(inboxes := h.inboxes[from := I.Settle(I.Receive(h.inboxes[from]))]);
    assert h1.inboxes.Keys == h.inboxes.Keys;
    ReadersGood(h, h1);
    if f.exec in h.inflight {
      assert RoutesFor(h1, h.inflight[f.exec].client) == RoutesFor(h, h.inflight[f.exec].client);
      assert RoutesFor(h1, h.inflight[f.exec].client) <= Members(order);
    }
    ForwardSteps(h1, from, f, order);
    NarrowsOn(h, h1, Forward(h1, from, f, order));
    DiscreetOn(h, h1, Forward(h1, from, f, order));
  }

  // ----- Leaving, and renewals -------------------------------------------------------------------------

  lemma DropMoves(h: Hub, from: Conn, order: seq<string>)
    requires Sane(h) && from in h.roles
    requires Visits(order, if h.roles[from].DeviceRole? then RoutesAt(h, from) else RoutesFor(h, from))
    ensures Sane(Drop(h, from, order)) && Moves(h, Drop(h, from, order))
  {
    hide Sane, Moves, StopRouting, CancelClient, RoutesAt, RoutesFor;
    assert Members(order) == if h.roles[from].DeviceRole? then RoutesAt(h, from) else RoutesFor(h, from);
    match h.roles[from]
    case DeviceRole(_) => StopMoves(h, from, order);
    case ClientRole(_) =>
      var h1 := CancelClient(h, order);
      CancelClientMoves(h, order);
      NoCallsLeft(h, h1, order, from);
      LeaveMoves(h1, from);
      MovesOn(h, h1, h1.(clients := h1.clients - {from}));
  }

  lemma RenewalsMove(h: Hub, renewals: set<Renewal>)
    requires Sane(h)
    ensures var h' := h.(renewals := renewals); Sane(h') && Moves(h, h')
  {
    hide Sane, Narrows, Quiet, Discreet;
    var h' := h.(renewals := renewals);
    ReadersGood(h, h');
    SilenceIsQuiet(h, h');
    SilenceIsDiscreet(h, h');
  }

  lemma GrantMoves(h: Hub, from: Conn, r: string, ms: int)
    requires Sane(h) && Live(h, from, r)
    ensures var h' := h.(granted := h.granted + [Grant(from, r, ms)]); Sane(h') && Moves(h, h')
  {
    hide Routing, Records, Wired, Live, Quiet, Discreet;
    var h' := h.(granted := h.granted + [Grant(from, r, ms)]);
    GrantKeepsRouting(h, h');
    FrameKeepsRecords(h, h');
    FewerRoutesKeepWired(h, h');
    SilenceIsQuiet(h, h');
    SilenceIsDiscreet(h, h');
    SameLife(h, h');
  }

  lemma GrantKeepsRouting(h: Hub, h': Hub)
    requires Routing(h) && h' == h.(granted := h'.granted)
    ensures Routing(h')
  {
    assert GateRoles(h'.gates, h.devices, h.roles) && Joiners(h'.gates, h.clients);
    hide Routing, GateRoles, Joiners, IssueRoles;
    FrameKeepsRouting(h, h');
  }

  lemma SameLife(h: Hub, h': Hub)
    requires h' == h.(granted := h'.granted)
    ensures forall r <- h.issued, from: Conn :: Live(h', from, r) == Live(h, from, r)
  {
    hide Binding.Matches, Device.Bound;
  }

  lemma TellMoves(h: Hub, from: Conn, f: Frame)
    requires Sane(h) && f.exec == ""
    ensures Sane(Tell(h, from, f)) && Moves(h, Tell(h, from, f))
  {
    hide Sane, Moves, Put;
    PutMoves(h, from, O.Send(f));
  }

  lemma RenewBeginMoves(h: Hub, from: Conn, r: string)
    requires Sane(h)
    ensures Sane(RenewBegin(h, from, r)) && Moves(h, RenewBegin(h, from, r))
  {
    hide Sane, Moves, Tell, Live;
    TellMoves(h, from, Reply(ExecutionLease, UNAUTHORIZED, 0));
    RenewalsMove(h, h.renewals + {Renewal(from, r)});
  }

  lemma RenewCommitMoves(h: Hub, from: Conn, r: string, ms: int, code: string, late: bool)
    requires Sane(h)
    ensures Sane(RenewCommit(h, from, r, ms, code, late)) && Moves(h, RenewCommit(h, from, r, ms, code, late))
  {
    hide Sane, Moves, Tell, Live;
    Stays(h);
    if Renewal(from, r) in h.renewals {
      var h1 := h.(renewals := h.renewals - {Renewal(from, r)});
      RenewalsMove(h, h1.renewals);
      if Live(h1, from, r) && !late && code == "" {
        GrantMoves(h1, from, r, ms);
        var h2 := h1.(granted := h1.granted + [Grant(from, r, ms)]);
        MovesOn(h, h1, h2);
        TellMoves(h2, from, Reply(ExecutionLease, "", 0));
        MovesOn(h, h2, Tell(h2, from, Reply(ExecutionLease, "", 0)));
      } else {
        var answer := if !Live(h1, from, r) then UNAUTHORIZED else if late then RELAY_ERROR else code;
        TellMoves(h1, from, Reply(ExecutionLease, answer, 0));
        MovesOn(h, h1, Tell(h1, from, Reply(ExecutionLease, answer, 0)));
      }
    }
  }
}
