/** Across the router: exactly when an unmarked exit vouches for output that is gone. */
module HubLosses {
  import opened Prelude
  import opened Frames
  import opened HubModel
  import opened HubRouting
  import opened HubRecords
  import opened HubWire
  import opened HubLease
  import opened HubSteps
  import opened HubCalls
  import opened HubHistory
  import opened HubTruncation
  import opened HubHonesty
  import opened HubCallers
  import O = OutboxModel
  import P = OutboxPipeline
  import L = OutboxLosses

  // ----- What callers are told outside their routes ----------------------------------------------------

  /** Outside routes, callers are sent nothing by request ID but error replies. */
  predicate RepliesOutside(h: Hub) {
    forall s <- h.wire :: Plain(s, h.roles) || L.IsReply(s.event.frame)
  }

  lemma DiscreetKeepsReplies(h: Hub, h': Hub)
    requires Discreet(h, h') && RepliesOutside(h)
    ensures RepliesOutside(h')
  {
    forall s <- h'.wire ensures Plain(s, h'.roles) || L.IsReply(s.event.frame) {
      var i :| 0 <= i < |h'.wire| && h'.wire[i] == s;
      if i < |h.wire| {
        assert s == h.wire[i] && s in h.wire;
      }
    }
  }

  lemma TellKeepsReplies(h: Hub, c: Conn, f: Frame)
    requires RepliesOutside(h) && L.IsReply(f)
    ensures RepliesOutside(Tell(h, c, f))
  {
    PutFields(h, c, O.Send(f), "");
    hide Put, O.Step;
  }

  lemma StepKeepsReplies(h: Hub, e: Event)
    requires Sane(h) && RepliesOutside(h)
    ensures RepliesOutside(Step(h, e))
  {
    hide Sane, Talks, Narrows, Discreet, Possible, Act, RepliesOutside, Tell;
    StepSane(h, e);
    if !e.Invokes? {
      DiscreetKeepsReplies(h, Step(h, e));
    } else if Possible(h, e) {
      InvokesAnswersItself(h, e);
      var h' := Act(h, e);
      if Discreet(h, h') {
        DiscreetKeepsReplies(h, h');
      } else {
        var f: Frame :| f.exec == e.exec && L.IsReply(f) && h' == Tell(h, e.conn, f);
        TellKeepsReplies(h, e.conn, f);
      }
    }
  }

  lemma {:induction false} RunKeepsReplies(h: Hub, events: seq<Event>)
    requires Sane(h) && RepliesOutside(h)
    ensures RepliesOutside(Run(h, events))
    decreases |events|
  {
    hide Sane, Narrows, Step, RepliesOutside, Talks, Discreet;
    if events != [] {
      StepSane(h, events[0]);
      StepKeepsReplies(h, events[0]);
      RunKeepsReplies(Step(h, events[0]), events[1..]);
    }
  }

  /** In every reachable state. */
  lemma OnlyRepliesOutside(events: seq<Event>)
    ensures RepliesOutside(Run(Fresh, events))
  {
    assert RepliesOutside(Fresh);
    hide Run, Sane, RepliesOutside;
    FreshIsSane();
    RunKeepsReplies(Fresh, events);
  }

  // ----- What was accepted for one request ------------------------------------------------------------

  /** Everything sent to the caller under the request ID belongs to the route, or is an error reply. */
  predicate RouteOrReply(wire: seq<Signal>, c: Conn, id: string, r: string) {
    forall s <- wire ::
      && (s.route == r ==> s.conn == c && P.SendsTo(s.event, id))
      && (s.conn == c && P.SendsTo(s.event, id) && s.route != r ==> L.IsReply(s.event.frame))
  }

  lemma OnlyUseRoutes(h: Hub, r: string)
    requires Sane(h) && OnlyUse(h, r) && RepliesOutside(h) && h.issued[r].request != ""
    ensures RouteOrReply(h.wire, h.issued[r].client, h.issued[r].request, r)
  {
    NoEmptyRoute(h);
    SaneIsWired(h);
    CallersAreNoDevices(h, r);
    hide Sane, Routing, FinalIsGone, FinalIsLast, Answered, Replayed;
    var c, id := h.issued[r].client, h.issued[r].request;
    forall s <- h.wire
      ensures (s.route == r ==> s.conn == c && P.SendsTo(s.event, id))
        && (s.conn == c && P.SendsTo(s.event, id) && s.route != r ==> L.IsReply(s.event.frame))
    {
      assert SignalOk(s, h.issued);
    }
  }

  /** Apart from error replies, what the caller's outbox accepted under the ID is what it accepted of the route. */
  lemma {:induction false} AcceptedContent(wire: seq<Signal>, c: Conn, id: string, r: string)
    requires RouteOrReply(wire, c, id, r) && Answered(wire)
    ensures L.Content(P.Accepts(EventsAt(wire, c), id)) == L.Content(Queued(Caused(wire, r)))
  {
    hide O.Run, O.Enqueue, Answered, L.Content;
    if wire != [] {
      var before, s := wire[..|wire| - 1], wire[|wire| - 1];
      assert wire == before + [s] && s in wire;
      AnsweredPart(wire);
      assert forall x <- before :: x in wire;
      AcceptedContent(before, c, id, r);
      ContentStep(before, s, c, id, r);
    }
  }

  lemma ContentStep(before: seq<Signal>, s: Signal, c: Conn, id: string, r: string)
    requires L.Content(P.Accepts(EventsAt(before, c), id)) == L.Content(Queued(Caused(before, r)))
    requires s.route == r ==> s.conn == c && P.SendsTo(s.event, id)
    requires s.conn == c && P.SendsTo(s.event, id) && s.route != r ==> L.IsReply(s.event.frame)
    requires s.event.Send? ==> s.result == O.Enqueue(P.After(EventsAt(before, s.conn)), s.event.frame).1
    ensures L.Content(P.Accepts(EventsAt(before + [s], c), id)) == L.Content(Queued(Caused(before + [s], r)))
  {
    hide O.Run, O.Enqueue, EventsAt, Caused, Queued, P.Accepts, P.After, L.Content;
    OneMoreSignal(before, s);
    QueuedMore(Caused(before, r), s);
    P.AcceptsMore(EventsAt(before, c), s.event, id);
    var q, e := Caused(before, r), EventsAt(before, c);
    var accepted, queued := P.Accepts(e, id), Queued(q);
    assert q + [] == q && e + [] == e && accepted + [] == accepted && queued + [] == queued;
    if s.event.Send? {
      L.ContentMore(accepted, s.event.frame);
      L.ContentMore(queued, s.event.frame);
      assert L.Content(accepted) + [] == L.Content(accepted);
    }
  }

  /** An unmarked exit that was written is one of the route's own. */
  lemma WrittenExitIsTheRoutes(wire: seq<Signal>, c: Conn, id: string, r: string, e: nat) returns (x: Signal)
    requires RouteOrReply(wire, c, id, r) && Answered(wire)
    requires var written := P.After(EventsAt(wire, c)).written;
      e < |written| && written[e].exec == id && L.Plain(written[e])
    ensures x in Caused(wire, r) && PlainExit(x)
  {
    var b := P.After(EventsAt(wire, c));
    var accepted, w := P.Accepts(EventsAt(wire, c), id), b.written[e];
    L.AlwaysSpared(EventsAt(wire, c), id);
    P.AroundWritten(b, e, id);
    AcceptedContent(wire, c, id, r);
    L.ContentMembers(accepted);
    L.ContentMembers(Queued(Caused(wire, r)));
    QueuedMembers(Caused(wire, r));
    hide P.After, P.Pipe, P.Named, P.Accepts, EventsAt, Caused, Queued, L.Content, L.Lost, Answered, RouteOrReply;
    var shown := P.Named(P.Pipe(b), id);
    var earlier := P.Named(b.written[..e], id);
    assert shown[|earlier|] == (earlier + [w])[|earlier|] == w && w in shown;
    assert w in L.Content(accepted);
    x :| x in Caused(wire, r) && x.event == O.Send(w) && x.result == O.Accepted;
  }

  /** The first terminal of a device's frames has one place. */
  lemma FirstTerminal(sent: seq<Frame>, m: nat, n: nat)
    requires m < |sent| && n < |sent| && IsTerminal(sent[m]) && IsTerminal(sent[n])
    requires NoTerminal(sent[..m]) && NoTerminal(sent[..n])
    ensures m == n
  {
    assert forall i | 0 <= i < n :: sent[..n][i] == sent[i] && sent[i] in sent[..n];
    assert forall i | 0 <= i < m :: sent[..m][i] == sent[i] && sent[i] in sent[..m];
  }

  /** Apart from error replies, these frames are the output the device sent before its exit, in order. */
  ghost predicate Whole(frames: seq<Frame>, sent: seq<Frame>, id: string) {
    exists m | 0 <= m < |sent| ::
      sent[m].kind == Exit && NoTerminal(sent[..m]) && L.Content(frames) == Output(sent[..m], id)
  }

  lemma WholeMeans(frames: seq<Frame>, sent: seq<Frame>, id: string, m: nat)
    requires m < |sent| && sent[m].kind == Exit && NoTerminal(sent[..m])
    ensures Whole(frames, sent, id) <==> L.Content(frames) == Output(sent[..m], id)
  {
    hide NoTerminal, L.Content, Output;
    forall n | 0 <= n < |sent| && sent[n].kind == Exit && NoTerminal(sent[..n]) ensures n == m {
      FirstTerminal(sent, m, n);
    }
  }

  /** What the route's caller accepted of a complete route: the device's output, then the exit. */
  lemma CompleteContent(said: seq<Signal>, x: Signal, sent: seq<Frame>, issue: Issue, r: string, m: nat)
    requires said != [] && said[|said| - 1] == x && PlainExit(x)
    requires m < |sent| && said[..|said| - 1] == Relayed(sent[..m], issue, r)
    ensures var front := Output(sent[..m], issue.request);
      L.Content(Queued(said)) == front + [x.event.frame] && forall f <- front :: IsOutput(f)
  {
    var before, front := said[..|said| - 1], Output(sent[..m], issue.request);
    assert said == before + [x];
    hide Relayed, Output, Queued, L.Content;
    RelayedIsOutput(sent[..m], issue, r);
    QueuedMore(before, x);
    L.ContentMore(front, x.event.frame);
    OutputIsContent(front);
  }

  lemma {:induction false} OutputIsContent(fs: seq<Frame>)
    requires forall f <- fs :: IsOutput(f)
    ensures L.Content(fs) == fs
  {
    if fs != [] {
      assert fs == [fs[0]] + fs[1..] && fs[0] in fs;
      OutputIsContent(fs[1..]);
    }
  }

  /** What the caller's outbox accepted under the request ID of an unmarked exit. */
  lemma {:induction false} RouteContent(h: Hub, r: string, e: nat) returns (m: nat, x: Frame)
    requires Sane(h) && Honest(h) && OnlyUse(h, r) && RepliesOutside(h) && h.issued[r].request != ""
    requires h.issued[r].client in h.net
    requires var written := h.net[h.issued[r].client].written;
      && e < |written| && written[e].exec == h.issued[r].request && L.Plain(written[e])
    ensures var c, id := h.issued[r].client, h.issued[r].request;
      var sent := Sent(h.heard, h.issued[r].via, r);
      && h.net[c] == P.After(EventsAt(h.wire, c))
      && m < |sent| && sent[m].kind == Exit && NoTerminal(sent[..m])
      && L.Content(P.Accepts(EventsAt(h.wire, c), id)) == Output(sent[..m], id) + [x]
      && (forall f <- Output(sent[..m], id) :: IsOutput(f))
  {
    var issue := h.issued[r];
    var c, id := issue.client, issue.request;
    OnlyUseRoutes(h, r);
    SaneIsWired(h);
    assert h.net[c] == P.After(EventsAt(h.wire, c));
    hide Sane, Routing, RepliesOutside, OnlyUse, FinalIsLast, FinalIsGone, Answered, Addressed, Replayed, RouteOrReply, Honest,
         Sent, Caused, EventsAt, P.After, P.Accepts, L.Content, L.Plain, Output, Queued, Relayed, PlainExit;
    var said, sent := Caused(h.wire, r), Sent(h.heard, issue.via, r);
    var s := WrittenExitIsTheRoutes(h.wire, c, id, r, e);
    ExitIsLast(h, r, s);
    m :| 0 <= m < |sent| && sent[m].kind == Exit && NoTerminal(sent[..m])
         && said[..|said| - 1] == Relayed(sent[..m], issue, r);
    CompleteContent(said, s, sent, issue, r, m);
    AcceptedContent(h.wire, c, id, r);
    x := s.event.frame;
  }

  lemma {:induction false} ExitExactly(h: Hub, r: string, e: nat)
    requires Sane(h) && Honest(h) && OnlyUse(h, r) && RepliesOutside(h) && h.issued[r].request != ""
    requires h.issued[r].client in h.net
    requires var written := h.net[h.issued[r].client].written;
      && e < |written| && written[e].exec == h.issued[r].request && written[e].kind == Exit && !written[e].truncated
    ensures var issue := h.issued[r];
      var sent, earlier := Sent(h.heard, issue.via, r), P.Named(h.net[issue.client].written[..e], issue.request);
      Whole(earlier, sent, issue.request) <==> L.NeverEvicting(EventsAt(h.wire, issue.client), issue.request)
  {
    var c, id, sent := h.issued[r].client, h.issued[r].request, Sent(h.heard, h.issued[r].via, r);
    hide Sane, RepliesOutside, OnlyUse, Honest, Sent, Caused, EventsAt, P.After, P.Named, P.Accepts, L.Content, L.NeverEvicting,
         Output;
    var m, x := RouteContent(h, r, e);
    L.ExitIsCompleteExactly(EventsAt(h.wire, c), e, id, Output(sent[..m], id), x);
    WholeMeans(P.Named(h.net[c].written[..e], id), sent, id, m);
    hide Whole, L.IsReply;
  }

  /** Truncation honesty, exactly. For a request ID that got one route, whatever else the caller did with it: apart
      from error replies, the frames written to it before an unmarked exit are the output the device sent before its
      exit, in order, if and only if no frame sent to it under that ID met the guard of the eviction. */
  lemma {:induction false} TruncationHonestyExactly(events: seq<Event>, r: string, e: nat)
    requires var h := Run(Fresh, events);
      && OnlyUse(h, r) && h.issued[r].request != "" && h.issued[r].client in h.net
      && var written := h.net[h.issued[r].client].written;
         && e < |written| && written[e].exec == h.issued[r].request
         && written[e].kind == Exit && !written[e].truncated
    ensures var h := Run(Fresh, events);
      var issue := h.issued[r];
      var sent, earlier := Sent(h.heard, issue.via, r), P.Named(h.net[issue.client].written[..e], issue.request);
      Whole(earlier, sent, issue.request) <==> L.NeverEvicting(EventsAt(h.wire, issue.client), issue.request)
  {
    hide Run, Sane, Narrows, Honest, OnlyUse, RepliesOutside, P.Named, Sent, Whole, L.NeverEvicting, EventsAt;
    FreshIsSane();
    FreshIsHonest();
    RunSane(Fresh, events);
    RunHonest(Fresh, events);
    OnlyRepliesOutside(events);
    ExitExactly(Run(Fresh, events), r, e);
  }
}
