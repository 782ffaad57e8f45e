/** End to end: an exit without the truncation mark vouches for all the output its device sent. */
module HubTruncation {
  import opened Prelude
  import opened Frames
  import opened HubModel
  import opened HubRouting
  import opened HubRecords
  import opened HubWire
  import opened HubLease
  import opened HubSteps
  import opened HubCalls
  import opened HubHistory
  import O = OutboxModel
  import P = OutboxPipeline
  import I = InboxModel

  // ----- What the device sent for a route --------------------------------------------------------------

  /** The frames that arrived from a connection for one route, in order. */
  function Sent(heard: seq<Heard>, k: Conn, r: string): seq<Frame> {
    if heard == [] then []
    else
      var last := heard[|heard| - 1];
      Sent(heard[..|heard| - 1], k, r) + if last.conn == k && last.frame.exec == r then [last.frame] else []
  }

  /** Those of them that wait in the reader's queue. */
  function Waits(items: seq<O.Item>, r: string): seq<Frame> {
    if items == [] then [] else (if items[0].frame.exec == r then [items[0].frame] else []) + Waits(items[1..], r)
  }

  predicate NoTerminal(frames: seq<Frame>) {
    forall f <- frames :: !IsTerminal(f)
  }

  /** The signals of a route whose caller got every output frame. */
  function Relayed(frames: seq<Frame>, issue: Issue, r: string): seq<Signal> {
    if frames == [] then []
    else
      var last := frames[|frames| - 1];
      Relayed(frames[..|frames| - 1], issue, r)
      + if IsOutput(last) then [Signal(issue.client, O.Send(last.(exec := issue.request)), r, O.Accepted)] else []
  }

  lemma SentMore(heard: seq<Heard>, x: Heard, k: Conn, r: string)
    ensures Sent(heard + [x], k, r) == Sent(heard, k, r) + if x.conn == k && x.frame.exec == r then [x.frame] else []
  {
    assert (heard + [x])[..|heard|] == heard;
  }

  lemma {:induction false} WaitsMore(items: seq<O.Item>, i: O.Item, r: string)
    ensures Waits(items + [i], r) == Waits(items, r) + if i.frame.exec == r then [i.frame] else []
    decreases |items|
  {
    var all := items + [i];
    if items == [] {
      assert all == [i] && all[1..] == [];
    } else {
      WaitsMore(items[1..], i, r);
      assert all[0] == items[0] && all[1..] == items[1..] + [i];
      WaitsFirst(all, r);
      WaitsFirst(items, r);
      hide Waits;
    }
  }

  lemma WaitsFirst(items: seq<O.Item>, r: string)
    requires items != []
    ensures Waits(items, r) == (if items[0].frame.exec == r then [items[0].frame] else []) + Waits(items[1..], r)
  {
  }

  lemma RelayedMore(frames: seq<Frame>, f: Frame, issue: Issue, r: string)
    ensures Relayed(frames + [f], issue, r) == Relayed(frames, issue, r)
      + if IsOutput(f) then [Signal(issue.client, O.Send(f.(exec := issue.request)), r, O.Accepted)] else []
  {
    assert (frames + [f])[..|frames|] == frames;
  }

  // ----- What holds of every route ---------------------------------------------------------------------

  /** An exit that was queued without the mark. */
  predicate PlainExit(s: Signal) {
    s.event.Send? && s.event.frame.kind == Exit && !s.event.frame.truncated && s.result == O.Accepted
  }

  /** The caller got all output up to the device's first terminal, which is an exit. */
  ghost predicate Complete(said: seq<Signal>, sent: seq<Frame>, issue: Issue, r: string) {
    exists m | 0 <= m < |sent| :: sent[m].kind == Exit && NoTerminal(sent[..m]) && said == Relayed(sent[..m], issue, r)
  }

  /** While the route is live and unmarked, what was sent for it has been relayed or still waits. */
  predicate Current(said: seq<Signal>, sent: seq<Frame>, waits: seq<Frame>, issue: Issue, r: string) {
    && |waits| <= |sent|
    && var n := |sent| - |waits|;
       sent[n..] == waits && NoTerminal(sent[..n]) && said == Relayed(sent[..n], issue, r)
  }

  /** Once it is over, an unmarked exit was complete. */
  ghost predicate Over(said: seq<Signal>, sent: seq<Frame>, issue: Issue, r: string) {
    said != [] && PlainExit(said[|said| - 1]) ==> Complete(said[..|said| - 1], sent, issue, r)
  }

  function Queue(h: Hub, k: Conn): seq<O.Item> {
    if k in h.inboxes then h.inboxes[k].frames else []
  }

  ghost predicate Told(h: Hub, r: string)
    requires r in h.issued
  {
    var i := h.issued[r];
    var said, sent := Caused(h.wire, r), Sent(h.heard, i.via, r);
    if r in h.inflight then !h.inflight[r].trunc ==> Current(said, sent, Waits(Queue(h, i.via), r), i, r)
    else Over(said, sent, i, r)
  }

  predicate QueuesHeard(h: Hub) {
    forall c <- h.inboxes, i <- h.inboxes[c].frames :: Heard(c, i.frame) in h.heard
  }

  ghost predicate Honest(h: Hub) {
    QueuesHeard(h) && forall r <- h.issued :: Told(h, r)
  }

  // ----- Steps that do not concern the route -----------------------------------------------------------

  lemma {:induction false} CausedMembers(wire: seq<Signal>, r: string)
    ensures forall s <- Caused(wire, r) :: s in wire && s.route == r
  {
    if wire != [] {
      CausedMembers(wire[..|wire| - 1], r);
    }
  }

  /** A live route has not been given its exit. */
  lemma LiveHasNoExit(h: Hub, r: string)
    requires FinalIsGone(h.wire, h.inflight) && r in h.inflight
    ensures forall s <- Caused(h.wire, r) :: !PlainExit(s)
  {
    CausedMembers(h.wire, r);
    hide Caused;
  }

  /** A quiet step for a route of which nothing new was heard. */
  lemma QuietKeepsTold(h: Hub, h': Hub, r: string)
    requires r in h.issued && r in h'.issued && h'.issued[r] == h.issued[r] && Told(h, r)
    requires FinalIsGone(h.wire, h.inflight) && QuietFor(h, h', r)
    requires Sent(h'.heard, h.issued[r].via, r) == Sent(h.heard, h.issued[r].via, r)
    requires r in h'.inflight ==> Waits(Queue(h', h.issued[r].via), r) == Waits(Queue(h, h.issued[r].via), r)
    ensures Told(h', r)
  {
    if r in h.inflight {
      LiveHasNoExit(h, r);
    }
    hide Caused, Sent, Waits, Queue, Current, Complete;
  }

  lemma {:induction false} NothingSent(heard: seq<Heard>, k: Conn, r: string)
    requires forall x <- heard :: x.frame.exec != r
    ensures Sent(heard, k, r) == []
  {
    if heard != [] {
      assert heard[|heard| - 1] in heard;
      NothingSent(heard[..|heard| - 1], k, r);
    }
  }

  lemma {:induction false} NothingWaits(items: seq<O.Item>, r: string)
    requires forall i <- items :: i.frame.exec != r
    ensures Waits(items, r) == []
  {
    if items != [] {
      NothingWaits(items[1..], r);
    }
  }

  lemma NewIsTold(h: Hub, h': Hub, r: string)
    requires Quiet(h, h') && QueuesHeard(h) && r in h'.issued && r !in h.issued
    ensures Told(h', r)
  {
    assert NewRoute(h, h', r);
    assert forall x <- h.heard :: x.frame.exec != r;
    var k := h'.issued[r].via;
    NothingSent(h'.heard, k, r);
    forall i <- Queue(h', k) ensures i.frame.exec != r {
      assert k in h'.inboxes && k in h.inboxes;
      assert Heard(k, i.frame) in h.heard;
    }
    NothingWaits(Queue(h', k), r);
    assert Relayed([], h'.issued[r], r) == [];
    hide Caused, Sent, Waits, QuietFor;
  }

  lemma QueuesStayHeard(h: Hub, h': Hub)
    requires QueuesHeard(h) && SameReaders(h, h') && h.heard == h'.heard
    ensures QueuesHeard(h')
  {
  }

  lemma QuietKeepsHonest(h: Hub, h': Hub)
    requires Sane(h) && Honest(h) && Quiet(h, h')
    ensures Honest(h')
  {
    SaneIsWired(h);
    hide Sane, Told, QuietFor;
    QueuesStayHeard(h, h');
    forall r <- h'.issued ensures Told(h', r) {
      if r in h.issued {
        RouteHasReader(h, r);
        SameQueue(h, h', r);
        QuietKeepsTold(h, h', r);
      } else {
        NewIsTold(h, h', r);
      }
    }
  }

  lemma SaneIsWired(h: Hub)
    requires Sane(h)
    ensures FinalIsGone(h.wire, h.inflight) && Routing(h) && FinalIsLast(h.wire) && Answered(h.wire)
    ensures Replayed(h.net, h.wire) && Addressed(h.wire, h.issued)
  {
    hide Routing, Records, FinalIsLast, FinalIsGone, Answered, Replayed, Addressed;
  }

  /** The device behind a live route has a reader. */
  lemma RouteHasReader(h: Hub, r: string)
    requires Sane(h)
    ensures r in h.inflight ==> r in h.issued && h.issued[r].via in h.inboxes
  {
    if r in h.inflight {
      SaneIsWired(h);
      RouteMeans(h, r);
      hide Inverse, CallersHeld, DevicesHeld, IssuesHeld, Counted, ClientRoles, GateRoles, Joiners, IssueRoles, Records, Wired;
    }
  }

  lemma SameQueue(h: Hub, h': Hub, r: string)
    requires SameReaders(h, h') && r in h.issued
    requires r in h.inflight ==> h.issued[r].via in h.inboxes
    requires QuietFor(h, h', r)
    ensures r in h'.inflight ==> Queue(h', h.issued[r].via) == Queue(h, h.issued[r].via)
  {
    hide Caused;
  }

  // ----- A frame arrives -------------------------------------------------------------------------------

  lemma CurrentArrives(said: seq<Signal>, sent: seq<Frame>, waits: seq<Frame>, f: Frame, issue: Issue, r: string)
    requires Current(said, sent, waits, issue, r)
    ensures Current(said, sent + [f], waits + [f], issue, r)
  {
    var n := |sent| - |waits|;
    assert (sent + [f])[..n] == sent[..n] && (sent + [f])[n..] == sent[n..] + [f];
  }

  lemma OverGrows(said: seq<Signal>, sent: seq<Frame>, f: Frame, issue: Issue, r: string)
    requires Over(said, sent, issue, r)
    ensures Over(said, sent + [f], issue, r)
  {
    if said != [] && PlainExit(said[|said| - 1]) {
      var m :| 0 <= m < |sent| && sent[m].kind == Exit && NoTerminal(sent[..m])
               && said[..|said| - 1] == Relayed(sent[..m], issue, r);
      assert (sent + [f])[..m] == sent[..m] && (sent + [f])[m] == sent[m];
    }
  }

  lemma OfferFields(i: I.Inbox, f: Frame)
    ensures var (i', result) := I.Offer(i, f);
      if result == I.Queued then exists size :: i'.frames == i.frames + [O.Item(f, size)] else i' == i
  {
  }

  /** One more frame heard for `r` and queued, or for another route. */
  lemma QueuedKeepsTold(h: Hub, h': Hub, c: Conn, f: Frame, size: nat, r: string)
    requires r in h.issued && Told(h, r) && c in h.inboxes
    requires h' == h.(heard := h.heard + [Heard(c, f)], inboxes := h'.inboxes)
    requires Queue(h', c) == Queue(h, c) + [O.Item(f, size)]
    requires forall k :: k != c ==> Queue(h', k) == Queue(h, k)
    ensures Told(h', r)
  {
    var i := h.issued[r];
    SentMore(h.heard, Heard(c, f), i.via, r);
    WaitsMore(Queue(h, c), O.Item(f, size), r);
    var said, sent, waits := Caused(h.wire, r), Sent(h.heard, i.via, r), Waits(Queue(h, i.via), r);
    assert sent + [] == sent && waits + [] == waits;
    hide Caused, Sent, Waits, Queue, Current, Over;
    if i.via == c && f.exec == r {
      if r in h.inflight && !h.inflight[r].trunc {
        CurrentArrives(said, sent, waits, f, i, r);
      } else if r !in h.inflight {
        OverGrows(said, sent, f, i, r);
      }
    }
  }

  /** One more frame heard and dropped, with its mark. */
  lemma DroppedKeepsTold(h: Hub, c: Conn, f: Frame, r: string)
    requires Routing(h) && r in h.issued && Told(h, r)
    ensures Told(NoteDropped(h.(heard := h.heard + [Heard(c, f)]), c, f), r)
  {
    var i := h.issued[r];
    var h1 := h.(heard := h.heard + [Heard(c, f)]);
    var h' := NoteDropped(h1, c, f);
    NoteDroppedFields(h1, c, f);
    NoteDroppedRoute(h1, c, f, r) by {
      assert r in h1.inflight ==> DevicesHeldAt(h1, r) by { if r in h.inflight { RouteMeans(h, r); } }
    }
    SentMore(h.heard, Heard(c, f), i.via, r);
    var said, sent := Caused(h.wire, r), Sent(h.heard, i.via, r);
    assert sent + [] == sent;
    hide Routing, Caused, Sent, Waits, Current, Over, NoteDropped, Complete;
    if i.via == c && f.exec == r && r !in h.inflight {
      OverGrows(said, sent, f, i, r);
    }
  }

  predicate DevicesHeldAt(h: Hub, r: string)
    requires r in h.inflight
  {
    && r in h.issued && h.inflight[r].device in h.devices
    && h.devices[h.inflight[r].device].conn == Some(h.issued[r].via)
  }

  lemma NoteDroppedRoute(h: Hub, c: Conn, f: Frame, r: string)
    requires r in h.inflight ==> DevicesHeldAt(h, r)
    ensures var h' := NoteDropped(h, c, f);
      && (r in h'.inflight <==> r in h.inflight)
      && (r in h.inflight ==>
            if f.exec == r && h.issued[r].via == c then h'.inflight[r].trunc else h'.inflight[r] == h.inflight[r])
  {
    if f.exec in h.inflight {
      SetRouteFields(h, f.exec, h.inflight[f.exec].(trunc := true));
      if f.exec != r {
        hide SetRoute;
        assert r in h.inflight ==> NoteDropped(h, c, f).inflight[r] == h.inflight[r];
      } else {
        hide SetRoute;
        assert DevicesHeldAt(h, r);
      }
    }
  }

  lemma ArriveFields(h: Hub, c: Conn, f: Frame)
    requires c in h.inboxes
    ensures var h' := Arrive(h, c, f);
      && h'.inboxes == h.inboxes[c := I.Offer(h.inboxes[c], f).0] && h'.issued == h.issued
      && h'.heard == if I.Offer(h.inboxes[c], f).1 == I.Overloaded then h.heard else h.heard + [Heard(c, f)]
  {
    hide I.Offer, NoteDropped, Put;
    var h1 := h.(inboxes := h.inboxes[c := I.Offer(h.inboxes[c], f).0]);
    NoteDroppedFields(h1.(heard := h.heard + [Heard(c, f)]), c, f);
    SendFields(h1.(deaf := h.deaf + {c}), c, O.CancelIt, "");
  }

  lemma NoteDroppedFields(h: Hub, c: Conn, f: Frame)
    ensures NoteDropped(h, c, f) == h.(inflight := NoteDropped(h, c, f).inflight)
  {
  }

  lemma ArriveKeepsQueues(h: Hub, c: Conn, f: Frame)
    requires QueuesHeard(h) && c in h.inboxes
    ensures QueuesHeard(Arrive(h, c, f))
  {
    hide QueuesHeard, Arrive, I.Offer;
    OfferFields(h.inboxes[c], f);
    ArriveFields(h, c, f);
    if I.Offer(h.inboxes[c], f).1 == I.Queued {
      OneMoreHeard(h, Arrive(h, c, f), c, f);
    } else {
      assert h.inboxes[c := h.inboxes[c]] == h.inboxes;
      SameQueues(h, Arrive(h, c, f));
    }
  }

  lemma OneMoreHeard(h: Hub, h': Hub, c: Conn, f: Frame)
    requires QueuesHeard(h) && c in h.inboxes && h'.heard == h.heard + [Heard(c, f)]
    requires h'.inboxes.Keys == h.inboxes.Keys && forall k <- h.inboxes :: k != c ==> h'.inboxes[k] == h.inboxes[k]
    requires exists size :: h'.inboxes[c].frames == h.inboxes[c].frames + [O.Item(f, size)]
    ensures QueuesHeard(h')
  {
    forall k <- h'.inboxes, i <- h'.inboxes[k].frames ensures Heard(k, i.frame) in h'.heard {
      if k in h.inboxes && i in h.inboxes[k].frames {
        assert Heard(k, i.frame) in h.heard;
      }
    }
  }

  lemma SameQueues(h: Hub, h': Hub)
    requires QueuesHeard(h) && h'.inboxes == h.inboxes && h.heard <= h'.heard
    ensures QueuesHeard(h')
  {
    forall k <- h'.inboxes, i <- h'.inboxes[k].frames ensures Heard(k, i.frame) in h'.heard {
      assert Heard(k, i.frame) in h.heard;
    }
  }

  lemma ArriveKeepsTold(h: Hub, c: Conn, f: Frame, r: string)
    requires Routing(h) && FinalIsGone(h.wire, h.inflight) && c in h.inboxes && r in h.issued && Told(h, r) && r != ""
    ensures r in Arrive(h, c, f).issued && Told(Arrive(h, c, f), r)
  {
    hide Routing, Put, I.Offer, Told, FinalIsGone, NoteDropped;
    ArriveFields(h, c, f);
    OfferFields(h.inboxes[c], f);
    var (inbox, result) := I.Offer(h.inboxes[c], f);
    match result
    case Queued =>
      var size :| inbox.frames == h.inboxes[c].frames + [O.Item(f, size)];
      QueuedKeepsTold(h, Arrive(h, c, f), c, f, size, r);
    case OutputDropped =>
      assert h.inboxes[c := inbox] == h.inboxes;
      DroppedKeepsTold(h, c, f, r);
    case Overloaded =>
      assert h.inboxes[c := inbox] == h.inboxes;
      OverloadKeepsTold(h, c, r);
  }

  lemma OverloadKeepsTold(h: Hub, c: Conn, r: string)
    requires r in h.issued && Told(h, r) && FinalIsGone(h.wire, h.inflight) && r != ""
    ensures Told(Put(h.(deaf := h.deaf + {c}), c, O.CancelIt, "").0, r)
  {
    var h1 := h.(deaf := h.deaf + {c});
    PutFields(h1, c, O.CancelIt, "");
    UncausedPut(h1, c, O.CancelIt, r);
    hide Put, Caused, Sent, Waits, Current, Over;
  }

  // ----- A frame is handled ----------------------------------------------------------------------------

  lemma CurrentSkips(said: seq<Signal>, sent: seq<Frame>, f: Frame, rest: seq<Frame>, issue: Issue, r: string)
    requires Current(said, sent, [f] + rest, issue, r) && !IsTerminal(f)
    ensures Current(said + (if IsOutput(f) then [Signal(issue.client, O.Send(f.(exec := issue.request)), r, O.Accepted)] else []),
                    sent, rest, issue, r)
  {
    var n := |sent| - |rest| - 1;
    assert sent[n..] == [f] + rest && sent[n] == f;
    assert sent[..n + 1] == sent[..n] + [f] && sent[n + 1..] == rest;
    RelayedMore(sent[..n], f, issue, r);
  }

  lemma ExitIsOver(said: seq<Signal>, sent: seq<Frame>, f: Frame, rest: seq<Frame>, s: Signal, issue: Issue, r: string)
    requires Current(said, sent, [f] + rest, issue, r) && f.kind == Exit
    ensures Over(said + [s], sent, issue, r)
  {
    var n := |sent| - |rest| - 1;
    assert sent[n..] == [f] + rest && sent[n] == f;
    assert (said + [s])[..|said|] == said;
  }

  /** How `Forward` leaves the route it is about. */
  ghost predicate Forwarded(h: Hub, h': Hub, f: Frame) {
    var r := f.exec;
    r in h.inflight
    && var said, later := Caused(h.wire, r), Caused(h'.wire, r);
       var client, request := h.inflight[r].client, h.inflight[r].request;
       || (r in h'.inflight && h'.inflight[r].trunc)
       || (r in h'.inflight && h'.inflight[r].trunc == h.inflight[r].trunc && !IsTerminal(f)
           && later == said + [Signal(client, O.Send(f.(exec := request)), r, O.Accepted)])
       || (r !in h'.inflight
           && (later == said
               || exists s :: later == said + [s] && (PlainExit(s) ==> f.kind == Exit && !h.inflight[r].trunc)))
  }

  lemma BudgetFrame(route: Route, f: Frame)
    ensures match Budget(route, f)
      case Withheld(later) => later.trunc
      case Passed(later, out) =>
        && out.kind == f.kind && out.exec == route.request
        && (!IsTerminal(f) ==> out == f.(exec := route.request))
        && (f.kind == Exit && !out.truncated ==> !route.trunc)
        && later.trunc == route.trunc && SameRoute(route, later)
  {
  }

  lemma AnswerSays(h: Hub, r: string, out: Frame)
    requires r in h.inflight
    ensures var (h1, sent) := Answer(h, r, out);
      && h1.inflight == h.inflight
      && (Caused(h1.wire, r) == Caused(h.wire, r)
          || Caused(h1.wire, r) == Caused(h.wire, r) + [Signal(h.inflight[r].client, O.Send(out), r, sent)])
      && (sent != O.Closed ==> Caused(h1.wire, r) == Caused(h.wire, r) + [Signal(h.inflight[r].client, O.Send(out), r, sent)])
  {
    var c := h.inflight[r].client;
    PutFields(h, c, O.Send(out), r);
    if c in h.net {
      OneMoreSignal(h.wire, Added(h, c, O.Send(out), r));
    }
    hide Caused, Put, O.Step;
  }

  /** What `Deliver` is asked to do with a device's frame. */
  predicate Carries(route: Route, f: Frame, out: Frame, r: string) {
    && f.exec == r && out.exec == route.request && out.kind == f.kind
    && (!IsTerminal(f) ==> out == f.(exec := route.request))
    && (f.kind == Exit && !out.truncated ==> !route.trunc)
  }

  lemma DeliverOutcome(h: Hub, r: string, f: Frame, out: Frame, order: seq<string>)
    requires Sane(h) && r in h.inflight && Carries(h.inflight[r], f, out, r)
    requires RoutesFor(h, h.inflight[r].client) <= Members(order)
    ensures Forwarded(h, Deliver(h, r, out, order), f)
  {
    hide Sane, Caused, Answer, CancelClient, RemoveClient, RoutesFor, Finish;
    AnswerSays(h, r, out);
    var (h1, sent) := Answer(h, r, out);
    match sent
    case Dropped => SetRouteFields(h1, r, h.inflight[r].(trunc := true));
    case Accepted => FinishFields(h1, r);
    case Closed => ClosedOutcome(h, r, f, out, order);
  }

  lemma ClosedOutcome(h: Hub, r: string, f: Frame, out: Frame, order: seq<string>)
    requires Sane(h) && r in h.inflight && Carries(h.inflight[r], f, out, r) && Answer(h, r, out).1 == O.Closed
    requires RoutesFor(h, h.inflight[r].client) <= Members(order)
    ensures Forwarded(h, RemoveClient(CancelClient(Answer(h, r, out).0, order), h.inflight[r].client), f)
  {
    hide Sane, Caused, Answer, CancelClient, RemoveClient, RoutesFor;
    AnswerSays(h, r, out);
    RouteIsNamed(h, r);
    ClosedEnds(h, r, out, order);
    LosingSaysNothing(Answer(h, r, out).0, h.inflight[r].client, order, r);
  }

  lemma RouteIsNamed(h: Hub, r: string)
    requires Sane(h) && r in h.inflight
    ensures r != "" && r in h.issued
  {
    RouteMeans(h, r);
  }

  lemma ClosedEnds(h: Hub, r: string, out: Frame, order: seq<string>)
    requires Sane(h) && r in h.inflight && out.exec == h.inflight[r].request && Answer(h, r, out).1 == O.Closed
    requires RoutesFor(h, h.inflight[r].client) <= Members(order)
    ensures r !in RemoveClient(CancelClient(Answer(h, r, out).0, order), h.inflight[r].client).inflight
  {
    hide Sane, Steps, Moves, Put, CancelClient;
    AcceptedSteps(h, r, out);
    var h1 := Answer(h, r, out).0;
    CancelClientMoves(h1, order);
    assert r in RoutesFor(h, h.inflight[r].client);
    var h2 := CancelClient(h1, order);
    SendFields(h2.(clients := h2.clients - {h.inflight[r].client}), h.inflight[r].client, O.CloseIt, "");
  }

  lemma ForwardOutcome(h: Hub, from: Conn, f: Frame, order: seq<string>)
    requires Sane(h) && f.exec in h.inflight && f.exec in h.issued && h.issued[f.exec].via == from
    requires RoutesFor(h, h.inflight[f.exec].client) <= Members(order)
    ensures Forwarded(h, Forward(h, from, f, order), f)
  {
    hide Sane, Forward, Budget, Caused, RoutesFor, Deliver, Forwarded;
    var r := f.exec;
    ForwardReaches(h, from, f, order);
    if Budget(h.inflight[r], f).Passed? {
      PassedOutcome(h, f, order);
    } else {
      WithheldOutcome(h, f);
    }
  }

  lemma WithheldOutcome(h: Hub, f: Frame)
    requires f.exec in h.inflight && Budget(h.inflight[f.exec], f).Withheld?
    ensures Forwarded(h, SetRoute(h, f.exec, Budget(h.inflight[f.exec], f).route), f)
  {
    BudgetFrame(h.inflight[f.exec], f);
    hide Budget, Caused;
  }

  lemma PassedOutcome(h: Hub, f: Frame, order: seq<string>)
    requires Sane(h) && f.exec in h.inflight && Budget(h.inflight[f.exec], f).Passed?
    requires RoutesFor(h, h.inflight[f.exec].client) <= Members(order)
    ensures var passage := Budget(h.inflight[f.exec], f);
      Forwarded(h, Deliver(SetRoute(h, f.exec, passage.route), f.exec, passage.frame, order), f)
  {
    hide Sane, Budget, Caused, RoutesFor, Deliver, SetRoute, Narrows;
    var r := f.exec;
    var passage := Budget(h.inflight[r], f);
    BudgetFrame(h.inflight[r], f);
    SetRouteFields(h, r, passage.route);
    SetRouteGood(h, r, passage.route);
    SameCalls(h, r, passage.route);
    DeliverOutcome(SetRoute(h, r, passage.route), r, f, passage.frame, order);
  }

  lemma ForwardReaches(h: Hub, from: Conn, f: Frame, order: seq<string>)
    requires Sane(h) && f.exec in h.inflight && f.exec in h.issued && h.issued[f.exec].via == from
    ensures var passage := Budget(h.inflight[f.exec], f);
      var h1 := SetRoute(h, f.exec, passage.route);
      Forward(h, from, f, order) == if passage.Passed? then Deliver(h1, f.exec, passage.frame, order) else h1
  {
    RouteMeans(h, f.exec);
    hide Routing, Records, Wired, Budget, Deliver;
  }

  /** The reader's queue without its oldest frame. */
  function Taken(h: Hub, c: Conn): Hub
    requires c in h.inboxes
  {
    h.(inboxes := h.inboxes[c := I.Settle(I.Receive(h.inboxes[c]))])
  }

  lemma TakenQueue(h: Hub, c: Conn)
    requires c in h.inboxes && h.inboxes[c].frames != [] && h.inboxes[c].settling == 0
    ensures Queue(Taken(h, c), c) == Queue(h, c)[1..]
    ensures forall k :: k != c ==> Queue(Taken(h, c), k) == Queue(h, k)
  {
  }

  /** The frame was relayed, or is neither output nor terminal. */
  lemma HandledStaysCurrent(said: seq<Signal>, sent: seq<Frame>, rest: seq<Frame>, f: Frame, later: seq<Signal>, i: Issue, r: string)
    requires Current(said, sent, [f] + rest, i, r) && !IsTerminal(f)
    requires if IsOutput(f) then later == said + [Signal(i.client, O.Send(f.(exec := i.request)), r, O.Accepted)]
             else later == said
    ensures Current(later, sent, rest, i, r)
  {
    assert said + [] == said;
    CurrentSkips(said, sent, f, rest, i, r);
    hide Current;
  }

  /** The frame was the route's last. */
  lemma HandledIsOver(said: seq<Signal>, sent: seq<Frame>, rest: seq<Frame>, f: Frame, later: seq<Signal>, trunc: bool, i: Issue, r: string)
    requires !trunc ==> Current(said, sent, [f] + rest, i, r)
    requires forall s <- said :: !PlainExit(s)
    requires later == said || exists s :: later == said + [s] && (PlainExit(s) ==> f.kind == Exit && !trunc)
    ensures Over(later, sent, i, r)
  {
    hide Current;
    if later != said {
      var s :| later == said + [s] && (PlainExit(s) ==> f.kind == Exit && !trunc);
      if PlainExit(s) {
        ExitIsOver(said, sent, f, rest, s, i, r);
      }
    }
  }

  /** A handled frame of the route itself. */
  lemma HandledKeepsTold(h: Hub, h1: Hub, h': Hub, f: Frame, r: string)
    requires r in h.issued && Told(h, r) && f.exec == r && r in h.inflight
    requires h1.inflight == h.inflight && h1.wire == h.wire && h1.heard == h.heard && h1.issued == h.issued
    requires Waits(Queue(h, h.issued[r].via), r) == [f] + Waits(Queue(h1, h.issued[r].via), r)
    requires h.issued[r].client == h.inflight[r].client && h.issued[r].request == h.inflight[r].request
    requires FinalIsGone(h.wire, h.inflight)
    requires h'.heard == h1.heard && h'.inboxes == h1.inboxes && h'.issued == h1.issued
    requires if IsOutput(f) || IsTerminal(f) then Forwarded(h1, h', f) else h' == h1
    ensures Told(h', r)
  {
    hide Caused, Sent, Waits, Complete, FinalIsGone, Current, Over, PlainExit, Queue;
    LiveHasNoExit(h, r);
    var i := h.issued[r];
    var said, sent, rest := Caused(h.wire, r), Sent(h.heard, i.via, r), Waits(Queue(h1, i.via), r);
    var later := Caused(h'.wire, r);
    SameReader(h1, h', i.via);
    if r !in h'.inflight {
      HandledIsOver(said, sent, rest, f, later, h.inflight[r].trunc, i, r);
    } else if !h'.inflight[r].trunc {
      HandledStaysCurrent(said, sent, rest, f, later, i, r);
    }
  }

  lemma SameReader(h: Hub, h': Hub, k: Conn)
    requires h'.inboxes == h.inboxes
    ensures Queue(h', k) == Queue(h, k)
  {
  }
}
