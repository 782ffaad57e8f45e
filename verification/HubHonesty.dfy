/** Truncation honesty over whole histories. */
module HubHonesty {
  import opened Prelude
  import opened Frames
  import opened HubModel
  import opened HubRouting
  import opened HubRecords
  import opened HubWire
  import opened HubLease
  import opened HubSteps
  import opened HubCalls
  import opened HubHistory
  import opened HubTruncation
  import O = OutboxModel
  import P = OutboxPipeline
  import I = InboxModel

  // ----- Handling one frame ----------------------------------------------------------------------------

  lemma WaitsTaken(h: Hub, c: Conn, k: Conn, r: string)
    requires c in h.inboxes && h.inboxes[c].frames != [] && h.inboxes[c].settling == 0
    ensures var f := h.inboxes[c].frames[0].frame;
      Waits(Queue(h, k), r) == (if k == c && f.exec == r then [f] else []) + Waits(Queue(Taken(h, c), k), r)
  {
    TakenQueue(h, c);
    var rest := Waits(Queue(Taken(h, c), k), r);
    assert [] + rest == rest;
    hide Taken;
  }

  lemma TakenKeepsQueues(h: Hub, c: Conn)
    requires QueuesHeard(h) && c in h.inboxes && h.inboxes[c].frames != [] && h.inboxes[c].settling == 0
    ensures QueuesHeard(Taken(h, c))
  {
    TakenQueue(h, c);
    forall k <- h.inboxes, i <- Taken(h, c).inboxes[k].frames ensures Heard(k, i.frame) in h.heard {
      assert i in h.inboxes[k].frames;
    }
  }

  lemma TakenSane(h: Hub, c: Conn)
    requires Sane(h) && c in h.inboxes
    ensures Sane(Taken(h, c))
  {
    hide Sane, Narrows;
    assert Taken(h, c).inboxes.Keys == h.inboxes.Keys;
    ReadersGood(h, Taken(h, c));
  }

  /** The frame belongs to another route, or comes from another device. */
  lemma {:induction false} OtherKeepsTold(h: Hub, c: Conn, order: seq<string>, r: string)
    requires Sane(h) && c in h.inboxes && h.inboxes[c].frames != [] && h.inboxes[c].settling == 0
    requires Visits(order, RoutesOfCaller(h, c)) && r in h.issued && Told(h, r)
    requires var f := h.inboxes[c].frames[0].frame; f.exec != r || h.issued[r].via != c
    ensures var h' := Process(h, c, order); r in h'.issued && Told(h', r)
  {
    hide Sane, Process, Caused, Told, QuietFor, Sent, FinalIsLast, Addressed, Answered, Replayed, Routing, Visits,
         RoutesOfCaller;
    var f := h.inboxes[c].frames[0].frame;
    var h1 := Taken(h, c);
    var h' := Process(h, c, order);
    WaitsTaken(h, c, h.issued[r].via, r);
    assert [] + Waits(Queue(h1, h.issued[r].via), r) == Waits(Queue(h1, h.issued[r].via), r);
    TakenSane(h, c);
    SaneIsWired(h);
    ProcessQuiet(h, c, order, r);
    hide Waits, Taken;
    QuietKeepsTold(h, h', r);
  }

  lemma ProcessQuiet(h: Hub, c: Conn, order: seq<string>, r: string)
    requires Sane(h) && c in h.inboxes && h.inboxes[c].frames != [] && h.inboxes[c].settling == 0
    requires Visits(order, RoutesOfCaller(h, c)) && r in h.issued
    requires var f := h.inboxes[c].frames[0].frame; f.exec != r || h.issued[r].via != c
    ensures var h' := Process(h, c, order);
      && QuietFor(h, h', r) && h'.heard == h.heard && h'.issued == h.issued && h'.inboxes == Taken(h, c).inboxes
  {
    var f := h.inboxes[c].frames[0].frame;
    var h1 := Taken(h, c);
    TakenSane(h, c);
    SameRoutesFor(h, h1);
    hide Sane, Caused, Forward, RoutesFor, Narrows, QuietFor, Taken;
    assert h1.inflight == h.inflight && h1.wire == h.wire && h1.issued == h.issued by { TakenFields(h, c); }
    assert Process(h, c, order) == if IsOutput(f) || IsTerminal(f) then Forward(h1, c, f, order) else h1 by {
      TakenFields(h, c);
    }
    SameIsQuiet(h, h1, r);
    assert f.exec in h.inflight ==> RoutesFor(h, h.inflight[f.exec].client) <= Members(order);
    ForwardQuiet(h1, c, f, order, r);
    SameStart(h, h1, Forward(h1, c, f, order), r);
  }

  lemma TakenFields(h: Hub, c: Conn)
    requires c in h.inboxes
    ensures Taken(h, c) == h.(inboxes := Taken(h, c).inboxes)
    ensures Taken(h, c).inboxes == h.inboxes[c := I.Settle(I.Receive(h.inboxes[c]))]
  {
  }

  lemma SameRoutesFor(h: Hub, h': Hub)
    requires h'.inflight == h.inflight
    ensures forall k: Conn :: RoutesFor(h', k) == RoutesFor(h, k)
  {
  }

  lemma SameStart(h: Hub, h1: Hub, h': Hub, r: string)
    requires h1.inflight == h.inflight && h1.wire == h.wire && QuietFor(h1, h', r)
    ensures QuietFor(h, h', r)
  {
    hide Caused;
  }

  lemma ForwardQuiet(h: Hub, c: Conn, f: Frame, order: seq<string>, r: string)
    requires Sane(h) && r in h.issued && (f.exec != r || h.issued[r].via != c)
    requires f.exec in h.inflight ==> RoutesFor(h, h.inflight[f.exec].client) <= Members(order)
    ensures var h' := Forward(h, c, f, order);
      QuietFor(h, h', r) && h'.heard == h.heard && h'.issued == h.issued && h'.inboxes == h.inboxes
  {
    ForwardSteps(h, c, f, order);
    if f.exec == r {
      if r in h.inflight {
        SaneIsWired(h);
        RouteMeans(h, r);
      }
      hide Sane, Caused, Routing, RoutesFor, Narrows, QuietBut, Budget, Deliver, FinalIsLast, Addressed, Answered, Replayed, FinalIsGone;
      assert Forward(h, c, f, order) == h;
    }
    hide Sane, Caused, RoutesFor, Narrows, QuietFor, Forward;
  }

  /** The frame is the route's own. */
  lemma OwnKeepsTold(h: Hub, c: Conn, order: seq<string>, r: string)
    requires Sane(h) && c in h.inboxes && h.inboxes[c].frames != [] && h.inboxes[c].settling == 0
    requires Visits(order, RoutesOfCaller(h, c)) && r in h.issued && Told(h, r)
    requires h.inboxes[c].frames[0].frame.exec == r && h.issued[r].via == c
    ensures var h' := Process(h, c, order); r in h'.issued && Told(h', r)
  {
    var f := h.inboxes[c].frames[0].frame;
    var h1 := Taken(h, c);
    var h' := Process(h, c, order);
    WaitsTaken(h, c, c, r);
    TakenSane(h, c);
    TakenFields(h, c);
    SaneIsWired(h);
    SameRoutesFor(h, h1);
    hide Sane, Caused, Told, Waits, Sent, Taken, FinalIsLast, Addressed, Answered, Replayed, Forward, RoutesFor, Forwarded, FinalIsGone;
    if r in h.inflight {
      RouteMeans(h, r);
      hide Routing;
      assert RoutesFor(h, h.inflight[r].client) <= Members(order);
      ForwardOutcome(h1, c, f, order);
      ForwardFrame(h1, c, f, order);
      HandledKeepsTold(h, h1, h', f, r);
    } else {
      hide Routing;
      assert Forward(h1, c, f, order) == h1 by { NoRouteNoForward(h1, c, f, order); }
      OverKeepsTold(h, h', r);
    }
  }

  lemma NoRouteNoForward(h: Hub, c: Conn, f: Frame, order: seq<string>)
    requires f.exec !in h.inflight
    ensures Forward(h, c, f, order) == h
  {
  }

  lemma OverKeepsTold(h: Hub, h': Hub, r: string)
    requires r in h.issued && Told(h, r) && r !in h.inflight && h' == h.(inboxes := h'.inboxes)
    ensures Told(h', r)
  {
    hide Caused, Sent, Waits, Complete;
  }

  lemma ForwardFrame(h: Hub, c: Conn, f: Frame, order: seq<string>)
    requires Sane(h) && f.exec in h.inflight && RoutesFor(h, h.inflight[f.exec].client) <= Members(order)
    ensures var h' := Forward(h, c, f, order); h'.heard == h.heard && h'.inboxes == h.inboxes && h'.issued == h.issued
  {
    hide Sane, Narrows, QuietFor, Forward, RoutesFor;
    ForwardSteps(h, c, f, order);
  }

  // ----- Every history ---------------------------------------------------------------------------------

  lemma ProcessKeepsHonest(h: Hub, c: Conn, order: seq<string>)
    requires Sane(h) && Honest(h) && c in h.inboxes && h.inboxes[c].frames != [] && h.inboxes[c].settling == 0
    requires Visits(order, RoutesOfCaller(h, c))
    ensures Honest(Process(h, c, order))
  {
    hide Sane, Told, Process, RoutesOfCaller, Visits;
    var h' := Process(h, c, order);
    var f := h.inboxes[c].frames[0].frame;
    ProcessFrame(h, c, order);
    TakenKeepsQueues(h, c);
    QueuesAre(Taken(h, c), h');
    forall r <- h'.issued ensures Told(h', r) {
      if f.exec == r && h.issued[r].via == c {
        OwnKeepsTold(h, c, order, r);
      } else {
        OtherKeepsTold(h, c, order, r);
      }
    }
  }

  lemma QueuesAre(h: Hub, h': Hub)
    requires QueuesHeard(h) && h'.inboxes == h.inboxes && h'.heard == h.heard
    ensures QueuesHeard(h')
  {
  }

  lemma ProcessForm(h: Hub, c: Conn, order: seq<string>)
    requires c in h.inboxes && h.inboxes[c].frames != []
    ensures var f := h.inboxes[c].frames[0].frame;
      Process(h, c, order) == if IsOutput(f) || IsTerminal(f) then Forward(Taken(h, c), c, f, order) else Taken(h, c)
  {
    hide Forward;
  }

  lemma ProcessFrame(h: Hub, c: Conn, order: seq<string>)
    requires Sane(h) && c in h.inboxes && h.inboxes[c].frames != [] && h.inboxes[c].settling == 0
    requires Visits(order, RoutesOfCaller(h, c))
    ensures var h' := Process(h, c, order);
      h'.issued == h.issued && h'.heard == Taken(h, c).heard && h'.inboxes == Taken(h, c).inboxes
  {
    var f := h.inboxes[c].frames[0].frame;
    var h1 := Taken(h, c);
    TakenSane(h, c);
    TakenFields(h, c);
    SameRoutesFor(h, h1);
    ProcessForm(h, c, order);
    hide Sane, Forward, Process, Taken, RoutesFor, Narrows, QuietFor;
    assert f.exec in h.inflight ==> RoutesFor(h, h.inflight[f.exec].client) <= Members(order);
    ForwardSteps(h1, c, f, order);
  }

  lemma ArriveKeepsHonest(h: Hub, c: Conn, f: Frame)
    requires Sane(h) && Honest(h) && c in h.inboxes
    ensures Honest(Arrive(h, c, f))
  {
    NoEmptyRoute(h);
    SaneIsWired(h);
    hide Sane, Told, Routing, Arrive, FinalIsGone, FinalIsLast, Answered, Replayed, Addressed;
    ArriveKeepsQueues(h, c, f);
    ArriveFields(h, c, f);
    forall r <- Arrive(h, c, f).issued ensures Told(Arrive(h, c, f), r) {
      ArriveKeepsTold(h, c, f, r);
    }
  }

  lemma StepKeepsHonest(h: Hub, e: Event)
    requires Sane(h) && Honest(h)
    ensures Honest(Step(h, e))
  {
    hide Sane, Honest, Quiet, Narrows, Act, Possible;
    StepSane(h, e);
    if !FromDevice(e) {
      QuietKeepsHonest(h, Step(h, e));
    } else if Possible(h, e) {
      FromDeviceKeepsHonest(h, e);
    }
  }

  lemma FromDeviceKeepsHonest(h: Hub, e: Event)
    requires Sane(h) && Honest(h) && FromDevice(e) && Possible(h, e)
    ensures Honest(Act(h, e))
  {
    hide Sane, Honest, Arrive, Process;
    match e
    case Arrives(c, f) => ArriveKeepsHonest(h, c, f);
    case Handles(c, order) => ProcessKeepsHonest(h, c, order);
  }

  lemma {:induction false} RunHonest(h: Hub, events: seq<Event>)
    requires Sane(h) && Honest(h)
    ensures Honest(Run(h, events))
    decreases |events|
  {
    hide Sane, Honest, Step, Narrows, Moves;
    if events != [] {
      StepSane(h, events[0]);
      StepKeepsHonest(h, events[0]);
      RunHonest(Step(h, events[0]), events[1..]);
    }
  }

  // ----- What the caller reads -------------------------------------------------------------------------

  /** Nothing but the route itself was ever sent to the caller under its request ID: the ID was used once,
      and no reply to a duplicate, an unknown or a refused request carried it. */
  predicate UsedOnce(h: Hub, r: string)
    requires r in h.issued
  {
    forall s <- h.wire :: s.conn == h.issued[r].client && s.event.Send? && s.event.frame.exec == h.issued[r].request
      ==> s.route == r
  }

  /** The frames of a route's signals that were queued. */
  function Queued(said: seq<Signal>): seq<Frame> {
    if said == [] then []
    else
      var s := said[|said| - 1];
      Queued(said[..|said| - 1]) + if s.event.Send? && s.result == O.Accepted then [s.event.frame] else []
  }

  lemma QueuedMore(said: seq<Signal>, s: Signal)
    ensures Queued(said + [s]) == Queued(said) + if s.event.Send? && s.result == O.Accepted then [s.event.frame] else []
  {
    assert (said + [s])[..|said|] == said;
  }

  /** Signals of `wire` about one exec at one connection all belong to route `r`, and the other way round. */
  predicate OnlyRoute(wire: seq<Signal>, c: Conn, id: string, r: string) {
    forall s <- wire :: (s.conn == c && s.event.Send? && s.event.frame.exec == id) <==> s.route == r
  }

  lemma {:induction false} AcceptedIsQueued(wire: seq<Signal>, c: Conn, id: string, r: string)
    requires OnlyRoute(wire, c, id, r) && Answered(wire)
    ensures P.Accepts(EventsAt(wire, c), id) == Queued(Caused(wire, r))
  {
    hide O.Run, O.Enqueue, Answered;
    if wire != [] {
      var before, s := wire[..|wire| - 1], wire[|wire| - 1];
      assert wire == before + [s] && s in wire;
      AnsweredPart(wire);
      assert forall x <- before :: x in wire;
      AcceptedIsQueued(before, c, id, r);
      AcceptedStep(before, s, c, id, r);
    }
  }

  lemma AcceptedStep(before: seq<Signal>, s: Signal, c: Conn, id: string, r: string)
    requires P.Accepts(EventsAt(before, c), id) == Queued(Caused(before, r))
    requires (s.conn == c && P.SendsTo(s.event, id)) <==> s.route == r
    requires s.event.Send? ==> s.result == O.Enqueue(P.After(EventsAt(before, s.conn)), s.event.frame).1
    ensures P.Accepts(EventsAt(before + [s], c), id) == Queued(Caused(before + [s], r))
  {
    hide O.Run, O.Enqueue, EventsAt, Caused, Queued, P.Accepts, P.After;
    OneMoreSignal(before, s);
    QueuedMore(Caused(before, r), s);
    P.AcceptsMore(EventsAt(before, c), s.event, id);
    var q, e := Caused(before, r), EventsAt(before, c);
    assert q + [] == q && e + [] == e;
    assert P.Accepts(e, id) + [] == P.Accepts(e, id);
  }

  lemma AnsweredPart(wire: seq<Signal>)
    requires Answered(wire) && wire != []
    ensures Answered(wire[..|wire| - 1])
    ensures var before, s := wire[..|wire| - 1], wire[|wire| - 1];
      s.event.Send? ==> s.result == O.Enqueue(P.After(EventsAt(before, s.conn)), s.event.frame).1
  {
    var before := wire[..|wire| - 1];
    hide O.Run, O.Enqueue, EventsAt;
    forall i | 0 <= i < |before| ensures before[i] == wire[i] && before[..i] == wire[..i] {
    }
  }

  /** After a queued terminal of the route its exec is not heard of again. */
  lemma {:induction false} LastWordAt(wire: seq<Signal>, c: Conn, id: string, r: string)
    requires OnlyRoute(wire, c, id, r) && Answered(wire) && FinalIsLast(wire) && r != ""
    ensures P.LastWord(EventsAt(wire, c), id)
    ensures P.Finished(EventsAt(wire, c), id) ==> exists s <- wire :: s.route == r && IsFinal(s)
  {
    if wire != [] {
      var before, s := wire[..|wire| - 1], wire[|wire| - 1];
      assert wire == before + [s] && s in wire;
      AnsweredPart(wire);
      FinalPart(before, s, r);
      assert forall x <- before :: x in wire;
      LastWordAt(before, c, id, r);
      OneMoreSignal(before, s);
      hide O.Run, O.Enqueue, EventsAt, Answered, FinalIsLast;
      if s.conn == c {
        LastWordMore(EventsAt(before, c), s.event, id);
        assert P.Finished(EventsAt(wire, c), id) && !P.Finished(EventsAt(before, c), id) ==> s.route == r && IsFinal(s);
      } else {
        assert EventsAt(wire, c) == EventsAt(before, c);
      }
    }
  }

  lemma FinalPart(before: seq<Signal>, s: Signal, r: string)
    requires FinalIsLast(before + [s]) && r != ""
    ensures FinalIsLast(before)
    ensures s.route == r ==> forall x <- before :: x.route == r ==> !IsFinal(x)
  {
    var wire := before + [s];
    assert forall i | 0 <= i < |before| :: wire[i] == before[i];
    assert wire[|before|] == s;
  }

  lemma LastWordMore(before: seq<O.Event>, e: O.Event, id: string)
    requires P.LastWord(before, id) && (P.Finished(before, id) ==> !P.SendsTo(e, id))
    ensures P.LastWord(before + [e], id)
    ensures P.Finished(before + [e], id) ==>
      P.Finished(before, id) || (P.EndsIt(e, id) && O.Enqueue(P.After(before), e.frame).1 == O.Accepted)
  {
    var events := before + [e];
    forall i | 0 <= i < |before| ensures events[i] == before[i] && events[..i] == before[..i] {
    }
    assert events[..|before|] == before && events[|before|] == e;
    hide O.Run, O.Enqueue;
  }

  lemma {:induction false} FinalEndsCaused(wire: seq<Signal>, r: string)
    requires FinalIsLast(wire) && r != ""
    ensures forall i | 0 <= i < |Caused(wire, r)| - 1 :: !IsFinal(Caused(wire, r)[i])
  {
    if wire != [] {
      var before, s := wire[..|wire| - 1], wire[|wire| - 1];
      assert wire == before + [s];
      FinalPart(before, s, r);
      FinalEndsCaused(before, r);
      CausedMembers(before, r);
      OneMoreSignal(before, s);
    }
  }

  lemma {:induction false} QueuedMembers(said: seq<Signal>)
    ensures forall f <- Queued(said) :: exists s <- said :: s.event == O.Send(f) && s.result == O.Accepted
  {
    if said != [] {
      QueuedMembers(said[..|said| - 1]);
    }
  }

  /** The output among a device's frames, under the caller's request ID. */
  function Output(frames: seq<Frame>, id: string): seq<Frame> {
    if frames == [] then []
    else
      var last := frames[|frames| - 1];
      Output(frames[..|frames| - 1], id) + if IsOutput(last) then [last.(exec := id)] else []
  }

  lemma {:induction false} RelayedIsOutput(frames: seq<Frame>, issue: Issue, r: string)
    ensures Queued(Relayed(frames, issue, r)) == Output(frames, issue.request)
    ensures forall f <- Output(frames, issue.request) :: IsOutput(f)
  {
    if frames != [] {
      var before, last := frames[..|frames| - 1], frames[|frames| - 1];
      RelayedIsOutput(before, issue, r);
      if IsOutput(last) {
        QueuedMore(Relayed(before, issue, r), Signal(issue.client, O.Send(last.(exec := issue.request)), r, O.Accepted));
      } else {
        assert Relayed(frames, issue, r) == Relayed(before, issue, r);
      }
    }
  }

  /** An unmarked exit on the wire is the last accepted frame of its exec, and what was accepted before it
      was written before it. */
  lemma WrittenExit(events: seq<O.Event>, e: nat, id: string)
    requires P.LastWord(events, id)
    requires var b := P.After(events);
      e < |b.written| && b.written[e].exec == id && b.written[e].kind == Exit && !b.written[e].truncated
    ensures var b := P.After(events);
      P.Named(b.written[..e], id) + [b.written[e]] <= P.Accepts(events, id)
  {
    P.AlwaysVouched(events, id);
    var b := P.After(events);
    P.AroundWritten(b, e, id);
    hide P.After, P.Pipe, P.Named, P.Accepts, P.Finished, P.Ended, P.LastWord;
    var shown, f := P.Named(P.Pipe(b), id), b.written[e];
    var earlier := P.Named(b.written[..e], id);
    assert shown[|earlier|] == f && f in shown;
    assert shown <= P.Accepts(events, id) ==> f in P.Accepts(events, id);
  }

  lemma FinalIsAtTheEnd(said: seq<Signal>, x: Signal)
    requires x in said && IsFinal(x) && forall i | 0 <= i < |said| - 1 :: !IsFinal(said[i])
    ensures said[|said| - 1] == x
  {
  }

  lemma ExitMeansOver(h: Hub, r: string, x: Signal)
    requires FinalIsGone(h.wire, h.inflight) && r in h.issued && Told(h, r) && x in Caused(h.wire, r) && PlainExit(x)
    ensures Over(Caused(h.wire, r), Sent(h.heard, h.issued[r].via, r), h.issued[r], r)
  {
    CausedMembers(h.wire, r);
    assert IsFinal(x) && x in h.wire && x.route == r;
    hide Caused, Sent, Complete, Current, Waits, Over;
  }

  lemma {:induction false} ExitIsLastOf(h: Hub, r: string, x: Signal)
    requires FinalIsLast(h.wire) && FinalIsGone(h.wire, h.inflight) && r != "" && r in h.issued && Told(h, r)
    requires x in Caused(h.wire, r) && PlainExit(x)
    ensures var said := Caused(h.wire, r);
      said[|said| - 1] == x && Complete(said[..|said| - 1], Sent(h.heard, h.issued[r].via, r), h.issued[r], r)
  {
    assert IsFinal(x);
    hide Caused, Sent, Told, Complete, FinalIsLast, FinalIsGone, IsFinal, PlainExit, Over;
    FinalEndsCaused(h.wire, r);
    FinalIsAtTheEnd(Caused(h.wire, r), x);
    ExitMeansOver(h, r, x);
    OverMeans(Caused(h.wire, r), Sent(h.heard, h.issued[r].via, r), h.issued[r], r, x);
  }

  /** The route of an unmarked exit is over, and its caller was sent everything before it. */
  lemma OverMeans(said: seq<Signal>, sent: seq<Frame>, issue: Issue, r: string, x: Signal)
    requires Over(said, sent, issue, r) && x in said && said[|said| - 1] == x && PlainExit(x)
    ensures Complete(said[..|said| - 1], sent, issue, r)
  {
    hide Complete;
  }

  lemma {:induction false} ExitIsLast(h: Hub, r: string, x: Signal)
    requires Sane(h) && Honest(h) && r in h.issued && x in Caused(h.wire, r) && PlainExit(x)
    ensures var said := Caused(h.wire, r);
      said[|said| - 1] == x && Complete(said[..|said| - 1], Sent(h.heard, h.issued[r].via, r), h.issued[r], r)
  {
    NoEmptyRoute(h);
    SaneIsWired(h);
    HonestTold(h, r);
    ExitIsLastOf(h, r, x);
    hide Sane, Honest, Routing, Caused, Sent, Told, Complete, FinalIsLast, FinalIsGone, Answered, Replayed, Addressed, PlainExit;
  }

  lemma HonestTold(h: Hub, r: string)
    requires Honest(h) && r in h.issued
    ensures Told(h, r)
  {
    hide Told, QueuesHeard;
  }

  /** Truncation honesty. For a request ID used once: when an exit without the truncation mark is written to
      the caller, the frames written to it under that ID before are exactly the output frames the
      device sent for the route before its exit, in order, whatever was dropped by the reader, the
      route's budget, the outbox or eviction along the way. */
  lemma {:induction false} ExitVouches(events: seq<Event>, r: string, e: nat)
    requires var h := Run(Fresh, events);
      && r in h.issued && UsedOnce(h, r) && h.issued[r].client in h.net
      && var written := h.net[h.issued[r].client].written;
         && e < |written| && written[e].exec == h.issued[r].request
         && written[e].kind == Exit && !written[e].truncated
    ensures var h := Run(Fresh, events);
      var issue := h.issued[r];
      var sent := Sent(h.heard, issue.via, r);
      exists m | 0 <= m < |sent| ::
        && sent[m].kind == Exit && NoTerminal(sent[..m])
        && P.Named(h.net[issue.client].written[..e], issue.request) == Output(sent[..m], issue.request)
  {
    FreshIsSane();
    FreshIsHonest();
    RunSane(Fresh, events);
    RunHonest(Fresh, events);
    hide Run, Sane, Honest, Narrows;
    HonestExit(Run(Fresh, events), r, e);
  }

  lemma FreshIsHonest()
    ensures Honest(Fresh)
  {
  }

  lemma UsedOnceOnly(h: Hub, r: string)
    requires Addressed(h.wire, h.issued) && r in h.issued && r != "" && UsedOnce(h, r)
    ensures OnlyRoute(h.wire, h.issued[r].client, h.issued[r].request, r)
  {
    forall s <- h.wire | s.route == r
      ensures s.conn == h.issued[r].client && s.event.Send? && s.event.frame.exec == h.issued[r].request
    {
      assert SignalOk(s, h.issued);
    }
  }

  lemma {:induction false} HonestExit(h: Hub, r: string, e: nat)
    requires Sane(h) && Honest(h) && r in h.issued && UsedOnce(h, r) && h.issued[r].client in h.net
    requires var written := h.net[h.issued[r].client].written;
      && e < |written| && written[e].exec == h.issued[r].request && written[e].kind == Exit && !written[e].truncated
    ensures var issue := h.issued[r];
      var sent := Sent(h.heard, issue.via, r);
      exists m | 0 <= m < |sent| ::
        && sent[m].kind == Exit && NoTerminal(sent[..m])
        && P.Named(h.net[issue.client].written[..e], issue.request) == Output(sent[..m], issue.request)
  {
    hide Sane, Honest, UsedOnce, Caused, Sent, Queued, P.Named, Output;
    var issue := h.issued[r];
    WrittenWasAccepted(h, r, e);
    var said, sent := Caused(h.wire, r), Sent(h.heard, issue.via, r);
    var f := h.net[issue.client].written[e];
    var earlier := P.Named(h.net[issue.client].written[..e], issue.request);
    var x := QueuedFrom(said, earlier, f);
    ExitIsLast(h, r, x);
    CompleteOutput(said, sent, issue, r, earlier, f, x);
  }

  lemma QueuedFrom(said: seq<Signal>, earlier: seq<Frame>, f: Frame) returns (x: Signal)
    requires earlier + [f] <= Queued(said)
    ensures x in said && x.event == O.Send(f) && x.result == O.Accepted
  {
    assert (earlier + [f])[|earlier|] == f;
    assert Queued(said)[|earlier|] == f && f in Queued(said);
    QueuedMembers(said);
    x :| x in said && x.event == O.Send(f) && x.result == O.Accepted;
  }

  lemma {:induction false} CompleteOutput(said: seq<Signal>, sent: seq<Frame>, issue: Issue, r: string, earlier: seq<Frame>, f: Frame, x: Signal)
    requires said != [] && said[|said| - 1] == x && x.event == O.Send(f) && x.result == O.Accepted && f.kind == Exit
    requires Complete(said[..|said| - 1], sent, issue, r) && earlier + [f] <= Queued(said)
    ensures exists m | 0 <= m < |sent| ::
      sent[m].kind == Exit && NoTerminal(sent[..m]) && earlier == Output(sent[..m], issue.request)
  {
    hide Queued, Relayed, Output;
    var front := said[..|said| - 1];
    var m :| 0 <= m < |sent| && sent[m].kind == Exit && NoTerminal(sent[..m]) && front == Relayed(sent[..m], issue, r);
    RelayedIsOutput(sent[..m], issue, r);
    assert said == front + [x];
    QueuedMore(front, x);
    LastInPlace(Output(sent[..m], issue.request), earlier, f);
  }

  /** Exits are not output, so the position of the exit fixes what came before it. */
  lemma {:induction false} LastInPlace(front: seq<Frame>, earlier: seq<Frame>, f: Frame)
    requires earlier + [f] <= front + [f] && !IsOutput(f) && forall g <- front :: IsOutput(g)
    ensures earlier == front
  {
    assert forall i | 0 <= i < |front| :: (front + [f])[i] in front;
    assert (front + [f])[|earlier|] == (earlier + [f])[|earlier|] == f;
    assert earlier == (earlier + [f])[..|earlier|];
    assert front == (front + [f])[..|front|];
  }

  lemma WrittenWasAccepted(h: Hub, r: string, e: nat)
    requires Sane(h) && r in h.issued && UsedOnce(h, r) && h.issued[r].client in h.net
    requires var written := h.net[h.issued[r].client].written;
      && e < |written| && written[e].exec == h.issued[r].request && written[e].kind == Exit && !written[e].truncated
    ensures var c, id := h.issued[r].client, h.issued[r].request;
      P.Named(h.net[c].written[..e], id) + [h.net[c].written[e]] <= Queued(Caused(h.wire, r))
  {
    var c, id := h.issued[r].client, h.issued[r].request;
    NoEmptyRoute(h);
    SaneIsWired(h);
    UsedOnceOnly(h, r);
    AcceptedIsQueued(h.wire, c, id, r);
    LastWordAt(h.wire, c, id, r);
    assert h.net[c] == P.After(EventsAt(h.wire, c));
    hide Sane, Routing, FinalIsLast, FinalIsGone, Answered, Addressed, Replayed, UsedOnce, OnlyRoute, EventsAt, P.After,
         Caused, Queued, P.LastWord, P.Finished, P.Accepts, P.Named;
    WrittenExit(EventsAt(h.wire, c), e, id);
  }
}
