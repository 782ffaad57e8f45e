/** The byte budget of a route over its whole history. */
module HubBudget {
  import opened Prelude
  import opened Frames
  import opened HubModel
  import opened HubRouting
  import opened HubRecords
  import opened HubWire
  import opened HubLease
  import opened HubSteps
  import opened HubCalls
  import opened HubHistory
  import opened HubTruncation
  import opened HubHonesty
  import O = OutboxModel
  import I = InboxModel

  /** The output bytes put to the caller by these signals. */
  function Spent(said: seq<Signal>): nat {
    if said == [] then 0
    else Spent(said[..|said| - 1]) + Cost(said[|said| - 1])
  }

  function Cost(s: Signal): nat {
    if s.event.Send? && IsOutput(s.event.frame) then |s.event.frame.data| else 0
  }

  predicate SmallFrames(said: seq<Signal>) {
    forall s <- said :: Cost(s) <= MAX_FRAME_BYTES
  }

  lemma SpentMore(said: seq<Signal>, s: Signal)
    ensures Spent(said + [s]) == Spent(said) + Cost(s)
  {
    assert (said + [s])[..|said|] == said;
  }

  predicate Within(h: Hub, r: string) {
    var said := Caused(h.wire, r);
    && SmallFrames(said)
    && if r in h.inflight then Spent(said) <= h.inflight[r].outBytes <= MAX_EXEC_OUTPUT_BYTES
       else Spent(said) <= MAX_EXEC_OUTPUT_BYTES
  }

  predicate Thrifty(h: Hub) {
    forall r <- h.issued :: Within(h, r)
  }

  lemma QuietKeepsWithin(h: Hub, h': Hub, r: string)
    requires Within(h, r) && QuietFor(h, h', r)
    ensures Within(h', r)
  {
    var before, after := Caused(h.wire, r), Caused(h'.wire, r);
    hide Caused, Spent;
    if after != before {
      var s :| after == before + [s] && s.event.Send? && s.event.frame.kind == Error;
      SpentMore(before, s);
    }
  }

  lemma {:induction false} ErrorsCostNothing(said: seq<Signal>)
    requires forall s <- said :: s.event.Send? && s.event.frame.kind == Error
    ensures Spent(said) == 0 && SmallFrames(said)
  {
    if said != [] {
      assert said[|said| - 1] in said;
      ErrorsCostNothing(said[..|said| - 1]);
    }
  }

  lemma NewIsWithin(h: Hub, h': Hub, r: string)
    requires NewRoute(h, h', r)
    ensures Within(h', r)
  {
    ErrorsCostNothing(if r in h'.inflight then [] else Caused(h'.wire, r));
    hide Caused;
  }

  lemma QuietKeepsThrifty(h: Hub, h': Hub)
    requires Thrifty(h) && Quiet(h, h')
    ensures Thrifty(h')
  {
    hide Within, QuietFor, NewRoute;
    forall r <- h'.issued ensures Within(h', r) {
      if r in h.issued {
        QuietKeepsWithin(h, h', r);
      } else {
        NewIsWithin(h, h', r);
      }
    }
  }

  // ----- Frames from the device ------------------------------------------------------------------------

  lemma DroppedKeepsCounts(h: Hub, c: Conn, f: Frame, r: string)
    ensures var h' := NoteDropped(h, c, f);
      (r in h'.inflight <==> r in h.inflight) && (r in h.inflight ==> h'.inflight[r].outBytes == h.inflight[r].outBytes)
  {
  }

  lemma ArriveKeepsBudget(h: Hub, c: Conn, f: Frame, r: string)
    requires c in h.inboxes
    ensures var h' := Arrive(h, c, f);
      (r in h'.inflight <==> r in h.inflight) && (r in h.inflight ==> h'.inflight[r].outBytes == h.inflight[r].outBytes)
  {
    hide I.Offer, Put, NoteDropped;
    var h1 := h.(inboxes := h.inboxes[c := I.Offer(h.inboxes[c], f).0]);
    SendFields(h1.(deaf := h.deaf + {c}), c, O.CancelIt, "");
    DroppedKeepsCounts(h1.(heard := h.heard + [Heard(c, f)]), c, f, r);
  }

  lemma ArriveKeepsWithin(h: Hub, c: Conn, f: Frame, r: string)
    requires c in h.inboxes && r != "" && Within(h, r)
    ensures Within(Arrive(h, c, f), r)
  {
    hide Arrive, Caused, Spent, SmallFrames;
    ArriveKeepsBudget(h, c, f, r);
    ArriveSaysNothing(h, c, f, r);
  }

  lemma ArriveKeepsThrifty(h: Hub, c: Conn, f: Frame)
    requires Sane(h) && Thrifty(h) && c in h.inboxes
    ensures Thrifty(Arrive(h, c, f))
  {
    NoEmptyRoute(h);
    ArriveFields(h, c, f);
    hide Sane, Arrive, Within;
    forall r <- h.issued ensures Within(Arrive(h, c, f), r) {
      ArriveKeepsWithin(h, c, f, r);
    }
  }

  lemma DeliverKeepsCount(h: Hub, r: string, out: Frame, order: seq<string>)
    requires Sane(h) && r in h.inflight && out.exec == h.inflight[r].request
    requires RoutesFor(h, h.inflight[r].client) <= Members(order)
    ensures var h' := Deliver(h, r, out, order);
      r in h'.inflight ==> h'.inflight[r].outBytes == h.inflight[r].outBytes
  {
    hide Sane, Caused, Answer, CancelClient, RemoveClient, RoutesFor, Finish;
    AnswerSays(h, r, out);
    var (h1, sent) := Answer(h, r, out);
    match sent
    case Dropped => SetRouteFields(h1, r, h.inflight[r].(trunc := true));
    case Accepted => FinishFields(h1, r);
    case Closed => ClosedEnds(h, r, out, order);
  }

  /** Offering a frame keeps the route's count, and says at most that frame. */
  lemma DeliverSpends(h: Hub, r: string, out: Frame, order: seq<string>)
    requires Sane(h) && r in h.inflight && out.exec == h.inflight[r].request
    requires RoutesFor(h, h.inflight[r].client) <= Members(order)
    ensures var h' := Deliver(h, r, out, order);
      && (r in h'.inflight ==> h'.inflight[r].outBytes == h.inflight[r].outBytes)
      && SpeaksOnce(Caused(h.wire, r), Caused(h'.wire, r), h.inflight[r].client, out, r)
  {
    hide Sane, Caused, Deliver, SpeaksOnce, RoutesFor;
    RouteIsNamed(h, r);
    PassedSpeaks(h, r, out, order);
    DeliverKeepsCount(h, r, out, order);
  }

  /** What `Budget` leaves for later frames. */
  lemma BudgetHolds(route: Route, f: Frame)
    requires route.outBytes <= MAX_EXEC_OUTPUT_BYTES
    ensures var size := if IsOutput(f) then |f.data| else 0;
      match Budget(route, f)
      case Withheld(later) =>
        && later.trunc && route.outBytes <= later.outBytes <= MAX_EXEC_OUTPUT_BYTES
        && (size > MAX_FRAME_BYTES || route.outBytes + size > MAX_EXEC_OUTPUT_BYTES)
      case Passed(later, out) =>
        && size <= MAX_FRAME_BYTES && later.outBytes == route.outBytes + size <= MAX_EXEC_OUTPUT_BYTES
        && (out.truncated <==> f.truncated || (route.trunc && f.kind == Exit))
        && out.data == f.data && out.kind == f.kind && out.exec == route.request && later.client == route.client
  {
  }

  lemma SpeaksWithin(before: seq<Signal>, after: seq<Signal>, c: Conn, f: Frame, r: string)
    requires SpeaksOnce(before, after, c, f, r) && SmallFrames(before)
    requires IsOutput(f) ==> |f.data| <= MAX_FRAME_BYTES
    ensures SmallFrames(after) && Spent(after) <= Spent(before) + if IsOutput(f) then |f.data| else 0
  {
    if after != before {
      var result :| after == before + [Signal(c, O.Send(f), r, result)];
      SpentMore(before, Signal(c, O.Send(f), r, result));
    }
  }

  lemma PassedWithin(h: Hub, f: Frame, order: seq<string>)
    requires Sane(h) && f.exec in h.inflight && Within(h, f.exec) && Budget(h.inflight[f.exec], f).Passed?
    requires RoutesFor(h, h.inflight[f.exec].client) <= Members(order)
    ensures var passage := Budget(h.inflight[f.exec], f);
      Within(Deliver(SetRoute(h, f.exec, passage.route), f.exec, passage.frame, order), f.exec)
  {
    hide Sane, Budget, Caused, RoutesFor, Deliver, SetRoute, Narrows, Spent, SmallFrames, SpeaksOnce;
    var r := f.exec;
    var passage := Budget(h.inflight[r], f);
    BudgetHolds(h.inflight[r], f);
    BudgetKeeps(h.inflight[r], f);
    SetRouteFields(h, r, passage.route);
    SetRouteGood(h, r, passage.route);
    SameCalls(h, r, passage.route);
    var h0 := SetRoute(h, r, passage.route);
    DeliverSpends(h0, r, passage.frame, order);
    SpeaksWithin(Caused(h.wire, r), Caused(Deliver(h0, r, passage.frame, order).wire, r),
                 h.inflight[r].client, passage.frame, r);
  }

  lemma ForwardWithin(h: Hub, from: Conn, f: Frame, order: seq<string>)
    requires Sane(h) && f.exec in h.inflight && f.exec in h.issued && h.issued[f.exec].via == from && Within(h, f.exec)
    requires RoutesFor(h, h.inflight[f.exec].client) <= Members(order)
    ensures Within(Forward(h, from, f, order), f.exec)
  {
    var r := f.exec;
    hide Sane, Budget, Caused, RoutesFor, Deliver, Forward, Spent, SmallFrames;
    ForwardReaches(h, from, f, order);
    if Budget(h.inflight[r], f).Passed? {
      PassedWithin(h, f, order);
    } else {
      BudgetHolds(h.inflight[r], f);
      SetRouteFields(h, r, Budget(h.inflight[r], f).route);
    }
  }

  lemma OwnKeepsWithin(h: Hub, c: Conn, order: seq<string>, r: string)
    requires Sane(h) && c in h.inboxes && h.inboxes[c].frames != [] && h.inboxes[c].settling == 0
    requires Visits(order, RoutesOfCaller(h, c)) && r in h.issued && Within(h, r)
    requires h.inboxes[c].frames[0].frame.exec == r && h.issued[r].via == c
    ensures Within(Process(h, c, order), r)
  {
    hide Sane, Within, Taken, Forward, Process, RoutesFor;
    var f := h.inboxes[c].frames[0].frame;
    var h1 := Taken(h, c);
    TakenSane(h, c);
    TakenFields(h, c);
    SameRoutesFor(h, h1);
    ProcessForm(h, c, order);
    SameWithin(h, h1, r);
    if r in h.inflight {
      assert RoutesFor(h, h.inflight[r].client) <= Members(order);
      ForwardWithin(h1, c, f, order);
    } else {
      NoRouteNoForward(h1, c, f, order);
    }
  }

  lemma SameWithin(h: Hub, h': Hub, r: string)
    requires Within(h, r) && h'.inflight == h.inflight && h'.wire == h.wire
    ensures Within(h', r)
  {
  }

  lemma ProcessKeepsThrifty(h: Hub, c: Conn, order: seq<string>)
    requires Sane(h) && Thrifty(h) && c in h.inboxes && h.inboxes[c].frames != [] && h.inboxes[c].settling == 0
    requires Visits(order, RoutesOfCaller(h, c))
    ensures Thrifty(Process(h, c, order))
  {
    hide Sane, Within, Process, RoutesOfCaller, Visits, QuietFor;
    ProcessFrame(h, c, order);
    forall r <- h.issued ensures Within(Process(h, c, order), r) {
      if h.inboxes[c].frames[0].frame.exec == r && h.issued[r].via == c {
        OwnKeepsWithin(h, c, order, r);
      } else {
        ProcessQuiet(h, c, order, r);
        QuietKeepsWithin(h, Process(h, c, order), r);
      }
    }
  }

  // ----- Every history ---------------------------------------------------------------------------------

  lemma FromDeviceKeepsThrifty(h: Hub, e: Event)
    requires Sane(h) && Thrifty(h) && FromDevice(e) && Possible(h, e)
    ensures Thrifty(Act(h, e))
  {
    hide Sane, Thrifty, Arrive, Process;
    match e
    case Arrives(c, f) => ArriveKeepsThrifty(h, c, f);
    case Handles(c, order) => ProcessKeepsThrifty(h, c, order);
  }

  lemma StepKeepsThrifty(h: Hub, e: Event)
    requires Sane(h) && Thrifty(h)
    ensures Thrifty(Step(h, e))
  {
    hide Sane, Thrifty, Quiet, Narrows, Discreet, Act, Possible;
    StepSane(h, e);
    if !FromDevice(e) {
      QuietKeepsThrifty(h, Step(h, e));
    } else if Possible(h, e) {
      FromDeviceKeepsThrifty(h, e);
    }
  }

  lemma {:induction false} RunKeepsThrifty(h: Hub, events: seq<Event>)
    requires Sane(h) && Thrifty(h)
    ensures Thrifty(Run(h, events))
    decreases |events|
  {
    hide Sane, Thrifty, Step, Narrows, Talks, Discreet;
    if events != [] {
      StepSane(h, events[0]);
      StepKeepsThrifty(h, events[0]);
      RunKeepsThrifty(Step(h, events[0]), events[1..]);
    }
  }

  /** Over every history the output bytes put to the caller of a route are at most 4 MiB, in frames of at
      most 64 KiB. */
  lemma OutputStaysWithinBudget(events: seq<Event>, r: string)
    requires r in Run(Fresh, events).issued
    ensures var said := Caused(Run(Fresh, events).wire, r);
      Spent(said) <= MAX_EXEC_OUTPUT_BYTES && SmallFrames(said)
  {
    hide Run, Sane, Caused, Spent, SmallFrames;
    FreshIsSane();
    RunKeepsThrifty(Fresh, events);
    assert Within(Run(Fresh, events), r);
  }
}
