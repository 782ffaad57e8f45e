/** What the router sends on behalf of a route: to whom, how often, and nothing after a terminal. */
module HubWire {
  import opened Prelude
  import opened Frames
  import opened HubModel
  import opened HubRouting
  import O = OutboxModel

  /** The events at one connection's outbox, in order. */
  function EventsAt(wire: seq<Signal>, c: Conn): seq<O.Event> {
    if wire == [] then []
    else
      var last := wire[|wire| - 1];
      EventsAt(wire[..|wire| - 1], c) + if last.conn == c then [last.event] else []
  }

  /** The signals caused by one route, in order. */
  function Caused(wire: seq<Signal>, r: string): seq<Signal> {
    if wire == [] then []
    else
      var last := wire[|wire| - 1];
      Caused(wire[..|wire| - 1], r) + if last.route == r then [last] else []
  }

  lemma OneMoreSignal(wire: seq<Signal>, s: Signal)
    ensures forall c: Conn :: EventsAt(wire + [s], c) == EventsAt(wire, c) + if s.conn == c then [s.event] else []
    ensures forall r: string :: Caused(wire + [s], r) == Caused(wire, r) + if s.route == r then [s] else []
  {
    assert (wire + [s])[..|wire|] == wire;
  }

  predicate IsFinal(s: Signal) {
    s.event.Send? && IsTerminal(s.event.frame) && s.result == O.Accepted
  }

  /** A signal of a route goes to the route's own caller, under the caller's request ID. */
  predicate SignalOk(s: Signal, issued: map<string, Issue>) {
    s.route != "" ==>
      && s.route in issued && s.conn == issued[s.route].client
      && s.event.Send? && s.event.frame.exec == issued[s.route].request
  }

  predicate Addressed(wire: seq<Signal>, issued: map<string, Issue>) {
    forall s <- wire :: SignalOk(s, issued)
  }

  /** Nothing follows a terminal that was queued, and its route is gone. */
  predicate FinalIsLast(wire: seq<Signal>) {
    forall i, j | 0 <= i < j < |wire| :: wire[i].route == wire[j].route && wire[i].route != "" ==> !IsFinal(wire[i])
  }

  predicate FinalIsGone(wire: seq<Signal>, inflight: map<string, Route>) {
    forall s <- wire :: s.route in inflight ==> !IsFinal(s)
  }

  /** The outboxes are what their events made of them. */
  predicate Replayed(net: map<Conn, O.Outbox>, wire: seq<Signal>) {
    && (forall c <- net :: net[c] == O.Run(O.EmptyOutbox, EventsAt(wire, c)))
    && (forall s <- wire :: s.conn in net)
  }

  /** Each send's recorded result is the outbox's answer at that time. */
  ghost predicate Answered(wire: seq<Signal>) {
    forall i | 0 <= i < |wire| :: wire[i].event.Send? ==>
      wire[i].result == O.Enqueue(O.Run(O.EmptyOutbox, EventsAt(wire[..i], wire[i].conn)), wire[i].event.frame).1
  }

  ghost predicate Wired(h: Hub) {
    && Addressed(h.wire, h.issued)
    && FinalIsLast(h.wire)
    && FinalIsGone(h.wire, h.inflight)
    && Replayed(h.net, h.wire)
    && Answered(h.wire)
  }

  lemma {:induction false} RunOneMore(b: O.Outbox, events: seq<O.Event>, e: O.Event)
    ensures O.Run(b, events + [e]) == O.Step(O.Run(b, events), e)
    decreases |events|
  {
    if events == [] {
      assert O.Run(O.Step(b, e), []) == O.Step(b, e);
    } else {
      assert (events + [e])[1..] == events[1..] + [e];
      RunOneMore(O.Step(b, events[0]), events[1..], e);
    }
  }

  // ----- Sending ---------------------------------------------------------------------------------------

  predicate MayPut(h: Hub, c: Conn, e: O.Event, r: string) {
    r != "" ==>
      r in h.inflight && r in h.issued && IssuedTo(h, r, c) && e.Send? && e.frame.exec == h.inflight[r].request
  }

  predicate IssuedTo(h: Hub, r: string, c: Conn)
    requires r in h.inflight && r in h.issued
  {
    h.issued[r].client == c && h.issued[r].request == h.inflight[r].request
  }

  /** The signal that `Put` adds for a connection there is. */
  function Added(h: Hub, c: Conn, e: O.Event, r: string): Signal
    requires c in h.net
  {
    Signal(c, e, r, Put(h, c, e, r).1)
  }

  lemma PutFields(h: Hub, c: Conn, e: O.Event, r: string)
    ensures c !in h.net ==> Put(h, c, e, r).0 == h
    ensures c in h.net ==> Put(h, c, e, r).0 == h.(net := h.net[c := O.Step(h.net[c], e)], wire := h.wire + [Added(h, c, e, r)])
    ensures c in h.net && e.Send? ==> Put(h, c, e, r).1 == O.Enqueue(h.net[c], e.frame).1
  {
    hide O.Step, O.Enqueue;
  }

  lemma PutReplays(h: Hub, c: Conn, e: O.Event, r: string)
    requires Replayed(h.net, h.wire)
    ensures Replayed(Put(h, c, e, r).0.net, Put(h, c, e, r).0.wire)
  {
    PutFields(h, c, e, r);
    hide Put, O.Step, O.Enqueue;
    if c in h.net {
      ReplayedMore(h.net, h.wire, Added(h, c, e, r));
    }
  }

  lemma ReplayedMore(net: map<Conn, O.Outbox>, wire: seq<Signal>, s: Signal)
    requires Replayed(net, wire) && s.conn in net
    ensures Replayed(net[s.conn := O.Step(net[s.conn], s.event)], wire + [s])
  {
    OneMoreSignal(wire, s);
    hide EventsAt, O.Step, O.Run;
    var later := net[s.conn := O.Step(net[s.conn], s.event)];
    forall c <- later ensures later[c] == O.Run(O.EmptyOutbox, EventsAt(wire + [s], c)) {
      if c == s.conn {
        RunOneMore(O.EmptyOutbox, EventsAt(wire, c), s.event);
      } else {
        assert EventsAt(wire + [s], c) == EventsAt(wire, c);
      }
    }
  }

  lemma PutAnswers(h: Hub, c: Conn, e: O.Event, r: string)
    requires Replayed(h.net, h.wire) && Answered(h.wire)
    ensures Answered(Put(h, c, e, r).0.wire)
  {
    PutFields(h, c, e, r);
    hide Put, O.Step, O.Enqueue;
    if c in h.net {
      AnsweredMore(h.wire, Added(h, c, e, r), h.net[c]);
    }
  }

  lemma AnsweredMore(wire: seq<Signal>, s: Signal, b: O.Outbox)
    requires Answered(wire) && b == O.Run(O.EmptyOutbox, EventsAt(wire, s.conn))
    requires s.event.Send? ==> s.result == O.Enqueue(b, s.event.frame).1
    ensures Answered(wire + [s])
  {
    hide EventsAt, O.Run, O.Enqueue;
    var more := wire + [s];
    forall i | 0 <= i < |more| && more[i].event.Send?
      ensures more[i].result == O.Enqueue(O.Run(O.EmptyOutbox, EventsAt(more[..i], more[i].conn)), more[i].event.frame).1
    {
      if i < |wire| {
        assert more[..i] == wire[..i];
      } else {
        assert more[..i] == wire;
      }
    }
  }

  lemma PutAddresses(h: Hub, c: Conn, e: O.Event, r: string)
    requires Addressed(h.wire, h.issued) && FinalIsLast(h.wire) && FinalIsGone(h.wire, h.inflight) && MayPut(h, c, e, r)
    ensures var h' := Put(h, c, e, r).0; Addressed(h'.wire, h.issued) && FinalIsLast(h'.wire)
  {
    PutFields(h, c, e, r);
    hide O.Step, O.Enqueue, Put;
    if r != "" && c in h.net {
      forall i | 0 <= i < |h.wire| && h.wire[i].route == r ensures !IsFinal(h.wire[i]) {
        assert h.wire[i] in h.wire;
      }
    }
  }

  lemma PutFinals(h: Hub, c: Conn, e: O.Event, r: string)
    requires FinalIsGone(h.wire, h.inflight) && "" !in h.inflight
    ensures FinalIsGone(Put(h, c, e, r).0.wire, h.inflight - {r})
    ensures r == "" || !(e.Send? && IsTerminal(e.frame) && Put(h, c, e, r).1 == O.Accepted)
            ==> FinalIsGone(Put(h, c, e, r).0.wire, h.inflight)
  {
    PutFields(h, c, e, r);
    hide O.Step, O.Enqueue, Put;
  }

  /** Any signal but a queued terminal. */
  lemma PutKeepsWired(h: Hub, c: Conn, e: O.Event, r: string)
    requires Wired(h) && MayPut(h, c, e, r)
    requires r != "" ==> !(IsTerminal(e.frame) && Put(h, c, e, r).1 == O.Accepted)
    requires "" !in h.inflight
    ensures Wired(Put(h, c, e, r).0)
  {
    PutReplays(h, c, e, r);
    PutAnswers(h, c, e, r);
    PutAddresses(h, c, e, r);
    PutFinals(h, c, e, r);
    PutFields(h, c, e, r);
    hide Put, O.Step, O.Enqueue, Replayed, Answered, Addressed, FinalIsLast, FinalIsGone, MayPut;
  }

  /** A last word to the caller, with its route. */
  lemma EndKeepsWired(h: Hub, r: string, f: Frame)
    requires Wired(h) && r in h.inflight && MayPut(h, h.inflight[r].client, O.Send(f), r) && r != "" && "" !in h.inflight
    ensures Wired(Finish(Answer(h, r, f).0, r))
  {
    var c := h.inflight[r].client;
    PutReplays(h, c, O.Send(f), r);
    PutAnswers(h, c, O.Send(f), r);
    PutAddresses(h, c, O.Send(f), r);
    PutFinals(h, c, O.Send(f), r);
    PutFields(h, c, O.Send(f), r);
    FinishFields(Answer(h, r, f).0, r);
    hide Finish, Put, O.Step, O.Enqueue, Replayed, Answered, Addressed, FinalIsLast, FinalIsGone, MayPut;
  }

  lemma FewerRoutesKeepWired(h: Hub, h': Hub)
    requires Wired(h) && h'.wire == h.wire && h'.net == h.net && h'.issued == h.issued
    requires h'.inflight.Keys <= h.inflight.Keys
    ensures Wired(h')
  {
    hide Replayed, Answered, Addressed, FinalIsLast;
  }

  lemma AddKeepsWired(h: Hub, h': Hub, r: string, issue: Issue)
    requires Wired(h) && h'.wire == h.wire && h'.net == h.net && h'.issued == h.issued[r := issue]
    requires h'.inflight.Keys == h.inflight.Keys + {r} && r !in h.issued && r != ""
    ensures Wired(h')
  {
    forall s <- h.wire ensures s.route != r && SignalOk(s, h'.issued) {
      assert SignalOk(s, h.issued);
    }
    hide Replayed, Answered, FinalIsLast;
  }

  lemma {:induction false} NothingAt(wire: seq<Signal>, c: Conn)
    requires forall s <- wire :: s.conn != c
    ensures EventsAt(wire, c) == []
  {
    if wire != [] {
      assert wire[|wire| - 1] in wire;
      NothingAt(wire[..|wire| - 1], c);
    }
  }

  lemma ConnectKeepsWired(h: Hub)
    requires Wired(h) && Known(h)
    ensures Wired(NewConnection(h))
  {
    var c := h.serial;
    assert forall s <- h.wire :: s.conn != c;
    NothingAt(h.wire, c);
    hide Answered, Addressed, FinalIsLast;
  }

  // ----- Quiet steps -----------------------------------------------------------------------------------

  /** A step that says nothing more for route `r`, unless it ends the route, with an error or without a
      word. */
  ghost predicate QuietFor(h: Hub, h': Hub, r: string) {
    && (r in h'.inflight ==> r in h.inflight && h'.inflight[r].trunc == h.inflight[r].trunc
                             && h'.inflight[r].outBytes == h.inflight[r].outBytes)
    && var before, after := Caused(h.wire, r), Caused(h'.wire, r);
       || after == before
       || (r in h.inflight && r !in h'.inflight
           && exists s :: after == before + [s] && s.event.Send? && s.event.frame.kind == Error)
  }

  /** A route of this step has said nothing yet, or was ended with an error at once. */
  predicate NewRoute(h: Hub, h': Hub, r: string) {
    && FreshRoute(h, r)
    && (r in h'.inflight ==> !h'.inflight[r].trunc && h'.inflight[r].outBytes == 0 && Caused(h'.wire, r) == [])
    && (r !in h'.inflight ==> forall s <- Caused(h'.wire, r) :: s.event.Send? && s.event.frame.kind == Error)
  }

  /** Readers hold what they held, new ones nothing. */
  predicate SameReaders(h: Hub, h': Hub) {
    && (forall c <- h.inboxes :: c in h'.inboxes && h'.inboxes[c] == h.inboxes[c])
    && (forall c <- h'.inboxes :: c !in h.inboxes ==> h'.inboxes[c].frames == [])
  }

  ghost predicate Quiet(h: Hub, h': Hub) {
    && h'.heard == h.heard && h'.deaf == h.deaf
    && SameReaders(h, h')
    && (forall r <- h.issued :: r in h'.issued && h'.issued[r] == h.issued[r])
    && (forall r <- h.issued :: QuietFor(h, h', r))
    && forall r <- h'.issued :: r !in h.issued ==> NewRoute(h, h', r)
  }

  lemma QuietOn(a: Hub, b: Hub, c: Hub)
    requires Quiet(a, b) && Quiet(b, c)
    ensures Quiet(a, c)
  {
    hide Caused, FreshRoute;
    forall r <- a.issued ensures QuietFor(a, c, r) {
      assert QuietFor(a, b, r) && QuietFor(b, c, r);
    }
    forall r <- c.issued | r !in a.issued ensures NewRoute(a, c, r) {
      NewOn(a, b, c, r);
    }
  }

  lemma NewOn(a: Hub, b: Hub, c: Hub, r: string)
    requires Quiet(a, b) && Quiet(b, c) && r in c.issued && r !in a.issued
    ensures NewRoute(a, c, r)
  {
    if r in b.issued {
      assert NewRoute(a, b, r) && QuietFor(b, c, r);
    } else {
      assert NewRoute(b, c, r);
      assert FreshRoute(a, r);
    }
    hide Caused;
  }

  lemma PutIsQuiet(h: Hub, c: Conn, e: O.Event)
    requires "" !in h.issued
    ensures Quiet(h, Put(h, c, e, "").0)
  {
    if c in h.net {
      OneMoreSignal(h.wire, Put(h, c, e, "").0.wire[|h.wire|]);
    }
    hide O.Step, O.Enqueue, Caused;
  }

  /** Anything that leaves wire and readers alone, and routes at most ended or cancelled. */
  lemma SilenceIsQuiet(h: Hub, h': Hub)
    requires h'.wire == h.wire && h'.heard == h.heard && h'.deaf == h.deaf
    requires SameReaders(h, h')
    requires h'.issued == h.issued
    requires forall r <- h'.inflight :: r in h.issued ==>
      r in h.inflight && h'.inflight[r].trunc == h.inflight[r].trunc && h'.inflight[r].outBytes == h.inflight[r].outBytes
    ensures Quiet(h, h')
  {
    hide Caused;
  }

  /** A terminal for the caller, and the end of the route. */
  lemma EndFields(h: Hub, r: string, f: Frame)
    requires r in h.inflight
    ensures var h' := Finish(Answer(h, r, f).0, r);
      && h'.inflight == h.inflight - {r} && h'.issued == h.issued && h'.heard == h.heard && h'.deaf == h.deaf
      && h'.inboxes == h.inboxes
      && (h'.wire == h.wire
          || (h.inflight[r].client in h.net && h'.wire == h.wire + [Added(h, h.inflight[r].client, O.Send(f), r)]))
  {
    PutFields(h, h.inflight[r].client, O.Send(f), r);
    FinishFields(Answer(h, r, f).0, r);
    hide Put, Added, Finish, O.Step;
  }

  lemma FinishFields(h: Hub, r: string)
    ensures Finish(h, r) == h.(requests := Finish(h, r).requests, active := Finish(h, r).active, inflight := h.inflight - {r})
  {
    assert r !in h.inflight ==> h.inflight - {r} == h.inflight;
  }

  /** An error for the caller, and the end of the route. */
  lemma FailIsQuiet(h: Hub, r: string, code: string)
    requires r in h.inflight && r != ""
    ensures Quiet(h, FailOne(h, r, code))
  {
    var f := Err(h.inflight[r].request, code);
    var c := h.inflight[r].client;
    EndFields(h, r, f);
    var h' := FailOne(h, r, code);
    if h'.wire != h.wire {
      OneMoreSignal(h.wire, Added(h, c, O.Send(f), r));
    }
    hide FailOne, Put, Caused;
    forall q <- h.issued ensures QuietFor(h, h', q) {
      if q == r && h'.wire != h.wire {
        assert Caused(h'.wire, r) == Caused(h.wire, r) + [Added(h, c, O.Send(f), r)];
      }
    }
  }

  // ----- Signals outside routes ------------------------------------------------------------------------

  /** A signal that names an exec belongs to its route or goes to a device. */
  predicate Plain(s: Signal, roles: map<Conn, Role>) {
    s.route != "" || !s.event.Send? || s.event.frame.exec == "" || ToDevice(s.conn, roles)
  }

  predicate ToDevice(c: Conn, roles: map<Conn, Role>) {
    c in roles && roles[c].DeviceRole?
  }

  /** A step that answers no caller by request ID except through a route. */
  predicate Discreet(h: Hub, h': Hub) {
    && h.wire <= h'.wire
    && (forall c <- h.roles :: c in h'.roles && h'.roles[c] == h.roles[c])
    && forall i | |h.wire| <= i < |h'.wire| :: Plain(h'.wire[i], h'.roles)
  }

  lemma DiscreetOn(a: Hub, b: Hub, c: Hub)
    requires Discreet(a, b) && Discreet(b, c)
    ensures Discreet(a, c)
  {
    forall i | |a.wire| <= i < |c.wire| ensures Plain(c.wire[i], c.roles) {
      if i < |b.wire| {
        assert c.wire[i] == b.wire[i] && Plain(b.wire[i], b.roles);
      }
    }
  }

  lemma SilenceIsDiscreet(h: Hub, h': Hub)
    requires h'.wire == h.wire && forall c <- h.roles :: c in h'.roles && h'.roles[c] == h.roles[c]
    ensures Discreet(h, h')
  {
  }

  /** Nothing that names an exec to a caller. */
  predicate Unaddressed(h: Hub, c: Conn, e: O.Event) {
    e.Send? ==> e.frame.exec == "" || ToDevice(c, h.roles)
  }

  lemma PutIsDiscreet(h: Hub, c: Conn, e: O.Event, r: string)
    requires r != "" || Unaddressed(h, c, e)
    ensures Discreet(h, Put(h, c, e, r).0)
  {
    PutFields(h, c, e, r);
    hide Put, O.Step;
  }
}
