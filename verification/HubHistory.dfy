/** The router over every history of connections, requests, frames, identity changes and storage
    outcomes. */
module HubHistory {
  import opened Prelude
  import opened Devices
  import opened Frames
  import opened HubModel
  import opened HubRouting
  import opened HubRecords
  import opened HubWire
  import opened HubLease
  import opened HubSteps
  import opened HubCalls
  import opened HubIdentity
  import opened HubPublish
  import A = Access
  import M = AdmissionModel
  import O = OutboxModel
  import I = InboxModel

  /** The steps in which a device's frame is heard or handled. */
  predicate FromDevice(e: Event) {
    e.Arrives? || e.Handles?
  }

  lemma OutboxMoves(h: Hub, c: Conn, e: O.Event)
    requires Sane(h) && !e.Send?
    ensures Sane(Put(h, c, e, "").0) && Moves(h, Put(h, c, e, "").0)
  {
    hide Sane, Moves, Put;
    PutMoves(h, c, e);
  }

  lemma MembersOf(order: seq<string>, routes: set<string>)
    requires Visits(order, routes)
    ensures routes <= Members(order)
  {
  }

  lemma ActMoves(h: Hub, e: Event)
    requires Sane(h) && Possible(h, e) && !FromDevice(e) && !e.Invokes?
    ensures Sane(Act(h, e)) && Moves(h, Act(h, e))
  {
    hide Sane, Moves, Put, RoutesOf, RoutesAt, RoutesFor, NewConnection, HelloDevice, HelloClient, BeginChange, Reject,
         Perform, Publish, Release, RenewBegin, RenewCommit, Drop, ClientsListed, FreshRoute;
    match e
    case Connect => ConnectMoves(h);
    case Outboxes(c, event) => OutboxMoves(h, c, event);
    case GreetDevice(c, id, hash, inbound) => HelloMoves(h, c, id, hash, inbound, Identity(0, 0, 0, 0, 0, 0, 0));
    case GreetClient(c, id, hash, identity) => HelloMoves(h, c, id, hash, false, identity);
    case Changes(c, change) => BeginMoves(h, c, change);
    case Rejects(c, code, order) => MembersOf(order, RoutesAt(h, c)); RejectMoves(h, c, code, order);
    case Transaction(id, now, late, w) => PerformMoves(h, id, now, late, w);
    case Publication(id, order, members, rest) => MembersOf(order, RoutesOf(h, id)); PublishMoves(h, id, order, members, rest);
    case Accounts(now, account) => AccountsMove(h, now, account);
    case RenewsBegin(c, r) => RenewBeginMoves(h, c, r);
    case RenewsCommit(c, r, ms, code, expired) => RenewCommitMoves(h, c, r, ms, code, expired);
    case Drops(c, order) => DropMoves(h, c, order);
  }

  lemma StepSane(h: Hub, e: Event)
    requires Sane(h)
    ensures Sane(Step(h, e)) && Narrows(h, Step(h, e))
    ensures !FromDevice(e) ==> Talks(h, Step(h, e))
    ensures !e.Invokes? ==> Discreet(h, Step(h, e))
  {
    hide Sane, Quiet, Narrows, Discreet, Act, Possible;
    Stays(h);
    if Possible(h, e) {
      if FromDevice(e) {
        DeviceActSane(h, e);
      } else if e.Invokes? {
        InvokesTalk(h, e);
      } else {
        ActMoves(h, e);
      }
    }
  }

  lemma InvokesTalk(h: Hub, e: Event)
    requires Sane(h) && Possible(h, e) && e.Invokes?
    ensures Sane(Act(h, e)) && Talks(h, Act(h, e))
  {
    hide Sane, Talks, Invoked, RoutesOf, FreshRoute;
    InvokedTalks(h, e.conn, e.exec, e.op, e.env);
  }

  lemma DeviceActSane(h: Hub, e: Event)
    requires Sane(h) && Possible(h, e) && FromDevice(e)
    ensures Sane(Act(h, e)) && Narrows(h, Act(h, e)) && Discreet(h, Act(h, e))
  {
    hide Sane, Narrows, Discreet, Arrive, Process;
    match e
    case Arrives(c, f) => ArriveGood(h, c, f);
    case Handles(c, order) => ProcessGood(h, c, order);
  }

  lemma {:induction false} RunSane(h: Hub, events: seq<Event>)
    requires Sane(h)
    ensures Sane(Run(h, events)) && Narrows(h, Run(h, events))
    decreases |events|
  {
    hide Sane, Narrows, Step;
    if events == [] {
      NarrowsSelf(h);
    } else {
      var h' := Step(h, events[0]);
      StepSane(h, events[0]);
      RunSane(h', events[1..]);
      NarrowsOn(h, h', Run(h', events[1..]));
    }
  }

  lemma NarrowsSelf(h: Hub)
    ensures Narrows(h, h)
  {
    hide Live;
  }

  lemma FreshIsSane()
    ensures Sane(Fresh)
  {
    FreshIsRouted();
    hide Routing;
  }

  lemma FreshIsRouted()
    ensures Routing(Fresh)
  {
    forall uid: Id ensures |Using(Fresh.inflight, uid)| == 0 {
      assert Using(Fresh.inflight, uid) == {};
    }
  }

  // ----- The router's maps -----------------------------------------------------------------------------

  /** In every reachable state: requests and routes are inverse; each route's caller is registered for the
      route's device; that device is online and ready on the connection that received the invoke; and
      each device's admission count is its number of routes, within the limit. */
  lemma RouterInvariant(events: seq<Event>)
    ensures var h := Run(Fresh, events);
      && Inverse(h.inflight, h.requests)
      && CallersHeld(h.inflight, h.clients)
      && DevicesHeld(h.inflight, h.devices, h.issued)
      && Counted(h.inflight, h.active)
  {
    FreshIsSane();
    RunSane(Fresh, events);
    hide Run, Inverse, CallersHeld, DevicesHeld, Counted, Records, Wired, Narrows;
  }

  /** The records of connected devices are the stored ones, whatever transactions failed or never
      answered, unless a change of that very device is still to be published. */
  lemma RecordsAreStored(events: seq<Event>, id: string)
    requires var h := Run(Fresh, events); id in h.devices && h.devices[id].conn.Some? && !InDoubt(h.gates, id)
    ensures var h := Run(Fresh, events);
      && Stored(h.store, id) == Some(h.devices[id].record)
      && id in h.access && h.access[id] == h.devices[id].record.Bound()
  {
    FreshIsSane();
    RunSane(Fresh, events);
    hide Run, Routing, Wired, Narrows, StoreOk, RoutesAgree, GatesAgree, Stored;
  }

  // ----- Who speaks for a route ------------------------------------------------------------------------

  /** Everything sent for a route goes to its own caller under the caller's request ID; at most one
      terminal is queued, and nothing after it. */
  lemma OneTerminalPerRoute(events: seq<Event>, i: nat, j: nat)
    requires i < |Run(Fresh, events).wire| && Run(Fresh, events).wire[i].route != ""
    ensures var h := Run(Fresh, events);
      var s := h.wire[i];
      && s.route in h.issued && s.conn == h.issued[s.route].client
      && s.event.Send? && s.event.frame.exec == h.issued[s.route].request
      && (i < j < |h.wire| && IsFinal(s) ==> h.wire[j].route != s.route)
  {
    FreshIsSane();
    RunSane(Fresh, events);
    var h := Run(Fresh, events);
    hide Run, Routing, Records, Narrows, Replayed, Answered, FinalIsGone;
    assert h.wire[i] in h.wire;
    assert SignalOk(h.wire[i], h.issued);
  }

  /** At most one signal more, the frame `f` for caller `c`. */
  ghost predicate SpeaksOnce(before: seq<Signal>, after: seq<Signal>, c: Conn, f: Frame, r: string) {
    after == before || exists result :: after == before + [Signal(c, O.Send(f), r, result)]
  }

  /** The connection speaks for the route: the invoke went out on it. */
  predicate Speaker(h: Hub, from: Conn, f: Frame) {
    f.exec in h.inflight && f.exec in h.issued && h.issued[f.exec].via == from && Budget(h.inflight[f.exec], f).Passed?
  }

  /** A device frame adds something for a route only if it names the route and arrived on the very
      connection the invoke went out on; it adds one signal, the frame itself under the caller's ID. */
  lemma ForwardSpeaks(h: Hub, from: Conn, f: Frame, order: seq<string>)
    requires Routing(h) && f.exec in h.issued
    ensures var r := f.exec;
      var before, after := Caused(h.wire, r), Caused(Forward(h, from, f, order).wire, r);
      after == before
      || (Speaker(h, from, f) && SpeaksOnce(before, after, h.issued[r].client, Budget(h.inflight[r], f).frame, r))
  {
    var r := f.exec;
    if r in h.inflight {
      RouteMeans(h, r);
      BudgetKeeps(h.inflight[r], f);
    }
    hide Routing, Budget, SetRoute, SpeaksOnce, Caused, Deliver;
    if r in h.inflight && h.inflight[r].device in h.devices && h.devices[h.inflight[r].device].conn == Some(from) {
      match Budget(h.inflight[r], f)
      case Withheld(route) => SetRouteFields(h, r, route);
      case Passed(route, out) =>
        SetRouteFields(h, r, route);
        PassedSpeaks(SetRoute(h, r, route), r, out, order);
    }
  }

  lemma SetRouteFields(h: Hub, r: string, route: Route)
    ensures SetRoute(h, r, route) == h.(inflight := h.inflight[r := route])
  {
  }

  lemma RouteMeans(h: Hub, r: string)
    requires Routing(h) && r in h.inflight
    ensures r in h.issued && r != "" && h.inflight[r].device in h.devices
    ensures h.devices[h.inflight[r].device].conn == Some(h.issued[r].via)
    ensures h.issued[r].client == h.inflight[r].client && h.issued[r].request == h.inflight[r].request
  {
    hide Inverse, CallersHeld, Counted, SlotRoles, ClientRoles, GateRoles, Joiners, IssueRoles, Known;
  }

  lemma AnswerSpeaks(h: Hub, r: string, f: Frame)
    requires r in h.inflight
    ensures SpeaksOnce(Caused(h.wire, r), Caused(Answer(h, r, f).0.wire, r), h.inflight[r].client, f, r)
  {
    var c := h.inflight[r].client;
    PutFields(h, c, O.Send(f), r);
    if c in h.net {
      OneMoreSignal(h.wire, Added(h, c, O.Send(f), r));
    }
    hide Caused, Put;
  }

  lemma PassedSpeaks(h: Hub, r: string, out: Frame, order: seq<string>)
    requires r in h.inflight && r != ""
    ensures SpeaksOnce(Caused(h.wire, r), Caused(Deliver(h, r, out, order).wire, r), h.inflight[r].client, out, r)
  {
    hide Caused, Answer, CancelClient, RemoveClient, Finish, SpeaksOnce;
    AnswerSpeaks(h, r, out);
    var h1 := Answer(h, r, out).0;
    LosingSaysNothing(h1, h.inflight[r].client, order, r);
    FinishFields(h1, r);
  }

  lemma UncausedPut(h: Hub, c: Conn, e: O.Event, r: string)
    requires r != ""
    ensures Caused(Put(h, c, e, "").0.wire, r) == Caused(h.wire, r)
  {
    PutFields(h, c, e, "");
    if c in h.net {
      OneMoreSignal(h.wire, Added(h, c, e, ""));
    }
    hide Caused, Put, Added;
  }

  lemma {:induction false} CancelSaysNothing(h: Hub, order: seq<string>, r: string)
    requires r != ""
    ensures Caused(CancelClient(h, order).wire, r) == Caused(h.wire, r)
    decreases |order|
  {
    hide Caused, Put, Finish;
    if order != [] {
      var q := order[0];
      if q in h.inflight {
        var id := h.inflight[q].device;
        if id in h.devices && h.devices[id].conn.Some? {
          UncausedPut(h, h.devices[id].conn.value, O.Send(CancelFrame(q)), r);
        }
        FinishFields(CancelAtDevice(h, q), q);
      }
      CancelSaysNothing(CancelOne(h, q), order[1..], r);
    }
  }

  /** Losing the caller says nothing to it. */
  lemma LosingSaysNothing(h: Hub, c: Conn, order: seq<string>, r: string)
    requires r != ""
    ensures Caused(RemoveClient(CancelClient(h, order), c).wire, r) == Caused(h.wire, r)
  {
    hide Caused, Put, CancelClient;
    CancelSaysNothing(h, order, r);
    var h1 := CancelClient(h, order);
    UncausedPut(h1.(clients := h1.clients - {c}), c, O.CloseIt, r);
  }

  /** In one step of any history a route says nothing, or the device behind it says one frame through the
      exact connection the invoke was dispatched on, or the relay ends it with one error. */
  lemma WhoSpeaksForARoute(events: seq<Event>, e: Event, r: string)
    requires r in Run(Fresh, events).issued
    ensures var h, h' := Run(Fresh, events), Step(Run(Fresh, events), e);
      var before, after := Caused(h.wire, r), Caused(h'.wire, r);
      || after == before
      || (e.Handles? && Possible(h, e)
          && var f := h.inboxes[e.conn].frames[0].frame;
             f.exec == r && Speaker(h, e.conn, f)
             && SpeaksOnce(before, after, h.issued[r].client, Budget(h.inflight[r], f).frame, r))
      || (!FromDevice(e) && r in h.inflight && r !in h'.inflight
          && exists s :: after == before + [s] && s.event.Send? && s.event.frame.kind == Error)
  {
    FreshIsSane();
    RunSane(Fresh, events);
    var h := Run(Fresh, events);
    hide Run, Sane, Narrows;
    if !FromDevice(e) {
      StepSane(h, e);
      MovesMeans(h, Step(h, e), r);
    } else if Possible(h, e) {
      hide Step;
      DeviceStepSpeaks(h, e, r);
      assert Step(h, e) == Act(h, e) by { StepActs(h, e); }
    } else {
      assert Step(h, e) == h;
    }
  }

  lemma StepActs(h: Hub, e: Event)
    requires Possible(h, e)
    ensures Step(h, e) == Act(h, e)
  {
  }

  lemma MovesMeans(h: Hub, h': Hub, r: string)
    requires Talks(h, h') && r in h.issued
    ensures QuietFor(h, h', r)
  {
    hide Narrows, QuietFor;
  }

  lemma ActsForDevice(h: Hub, e: Event)
    requires Possible(h, e) && FromDevice(e)
    ensures e.conn in h.inboxes
    ensures e.Arrives? ==> Act(h, e) == Arrive(h, e.conn, e.frame)
    ensures e.Handles? ==>
      && h.inboxes[e.conn].frames != [] && Visits(e.order, RoutesOfCaller(h, e.conn))
      && Act(h, e) == Process(h, e.conn, e.order)
  {
    hide Arrive, Process, RoutesOfCaller, Visits;
  }

  lemma {:induction false} DeviceStepSpeaks(h: Hub, e: Event, r: string)
    requires Sane(h) && Possible(h, e) && FromDevice(e) && r in h.issued
    ensures var before, after := Caused(h.wire, r), Caused(Act(h, e).wire, r);
      || after == before
      || (e.Handles? && e.conn in h.inboxes && h.inboxes[e.conn].frames != []
          && var f := h.inboxes[e.conn].frames[0].frame;
             f.exec == r && Speaker(h, e.conn, f)
             && SpeaksOnce(before, after, h.issued[r].client, Budget(h.inflight[r], f).frame, r))
  {
    NoEmptyRoute(h);
    ActsForDevice(h, e);
    hide Sane, Caused, SpeaksOnce, Speaker, Possible, Arrive, Process, Budget, Act;
    match e
    case Arrives(c, f) => ArriveSaysNothing(h, c, f, r);
    case Handles(c, order) => ProcessSpeaks(h, c, order, r);
  }

  lemma ArriveSaysNothing(h: Hub, c: Conn, f: Frame, r: string)
    requires c in h.inboxes && r != ""
    ensures Caused(Arrive(h, c, f).wire, r) == Caused(h.wire, r)
  {
    hide Caused, Put, I.Offer;
    var inbox := I.Offer(h.inboxes[c], f).0;
    UncausedPut(h.(inboxes := h.inboxes[c := inbox], deaf := h.deaf + {c}), c, O.CancelIt, r);
  }

  lemma ProcessSpeaks(h: Hub, c: Conn, order: seq<string>, r: string)
    requires Sane(h) && c in h.inboxes && h.inboxes[c].frames != [] && r in h.issued
    requires Visits(order, RoutesOfCaller(h, c))
    ensures var f := h.inboxes[c].frames[0].frame;
      var before, after := Caused(h.wire, r), Caused(Process(h, c, order).wire, r);
      after == before
      || (f.exec == r && Speaker(h, c, f)
          && SpeaksOnce(before, after, h.issued[r].client, Budget(h.inflight[r], f).frame, r))
  {
    hide Routing, Records, Wired, Caused, SpeaksOnce, Forward, Speaker;
    var f := h.inboxes[c].frames[0].frame;
    var h1 := h.(inboxes := h.inboxes[c := I.Settle(I.Receive(h.inboxes[c]))]);
    NoEmptyRoute(h);
    ReadingKeepsRouting(h, h1);
    if f.exec == r {
      ForwardSpeaks(h1, c, f, order);
      SameSpeaker(h, h1, c, f);
    } else {
      ForwardElsewhere(h1, c, f, order, r);
    }
  }

  lemma ReadingKeepsRouting(h: Hub, h': Hub)
    requires Sane(h) && h' == h.(inboxes := h'.inboxes) && h'.inboxes.Keys == h.inboxes.Keys
    ensures Routing(h')
  {
    hide Sane, Narrows;
    ReadersGood(h, h');
    SaneIsRouting(h');
  }

  lemma SaneIsRouting(h: Hub)
    requires Sane(h)
    ensures Routing(h)
  {
    hide Routing, Records, Wired;
  }

  lemma SameSpeaker(h: Hub, h': Hub, c: Conn, f: Frame)
    requires h'.inflight == h.inflight && h'.issued == h.issued
    ensures Speaker(h', c, f) == Speaker(h, c, f)
  {
    hide Budget;
  }

  /** Frames for another route say nothing for this one. */
  lemma ForwardElsewhere(h: Hub, from: Conn, f: Frame, order: seq<string>, r: string)
    requires r != "" && f.exec != r
    ensures Caused(Forward(h, from, f, order).wire, r) == Caused(h.wire, r)
  {
    ForwardForm(h, from, f, order);
    hide Budget, SetRoute, Caused, Deliver, Forward;
    var q := f.exec;
    if Forward(h, from, f, order) != h {
      var route := Budget(h.inflight[q], f).route;
      SetRouteFields(h, q, route);
      if Budget(h.inflight[q], f).Passed? {
        DeliverElsewhere(SetRoute(h, q, route), q, Budget(h.inflight[q], f).frame, order, r);
      }
    }
  }

  lemma ForwardForm(h: Hub, from: Conn, f: Frame, order: seq<string>)
    ensures var h' := Forward(h, from, f, order);
      || h' == h
      || (f.exec in h.inflight
          && var passage := Budget(h.inflight[f.exec], f);
             var h1 := SetRoute(h, f.exec, passage.route);
             h' == if passage.Passed? then Deliver(h1, f.exec, passage.frame, order) else h1)
  {
    hide Budget, Deliver;
  }

  lemma DeliverElsewhere(h: Hub, q: string, out: Frame, order: seq<string>, r: string)
    requires q in h.inflight && q != r && r != ""
    ensures Caused(Deliver(h, q, out, order).wire, r) == Caused(h.wire, r)
  {
    hide Caused, Answer, CancelClient, RemoveClient, Finish;
    AnswerElsewhere(h, q, out, r);
    var h1 := Answer(h, q, out).0;
    LosingSaysNothing(h1, h.inflight[q].client, order, r);
    FinishFields(h1, q);
  }

  lemma AnswerElsewhere(h: Hub, q: string, f: Frame, r: string)
    requires q in h.inflight && q != r
    ensures Caused(Answer(h, q, f).0.wire, r) == Caused(h.wire, r)
  {
    var c := h.inflight[q].client;
    PutFields(h, c, O.Send(f), q);
    if c in h.net {
      OneMoreSignal(h.wire, Added(h, c, O.Send(f), q));
    }
    hide Caused, Put;
  }
}
