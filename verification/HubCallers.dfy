/** What a caller has to do to be answered only through its route, and what it may then believe. */
module HubCallers {
  import opened Prelude
  import opened Frames
  import opened HubModel
  import opened HubRouting
  import opened HubRecords
  import opened HubWire
  import opened HubLease
  import opened HubSteps
  import opened HubCalls
  import opened HubHistory
  import opened HubRenewals
  import opened HubTruncation
  import opened HubHonesty
  import O = OutboxModel
  import P = OutboxPipeline
  import L = OutboxLosses

  /** An invoke was dispatched under a new route. */
  predicate Dispatched(h: Hub, e: Event)
    requires e.Invokes?
  {
    e.env.route in Step(h, e).issued && e.env.route !in h.issued
  }

  /** A cancellation that reaches a request in flight. */
  predicate CancelsInFlight(h: Hub, e: Event)
    requires e.Invokes?
  {
    e.op == CANCEL && RequestKey(e.conn, e.exec) in h.requests
  }

  /** The caller does nothing with this request ID but invoke it successfully and cancel it in flight: it is
      not repeated, not cancelled after its exit, and not refused. */
  predicate Careful(h: Hub, e: Event, c: Conn, id: string) {
    e.Invokes? && e.conn == c && e.exec == id && Possible(h, e) ==> Dispatched(h, e) || CancelsInFlight(h, e)
  }

  predicate AlwaysCareful(h: Hub, events: seq<Event>, c: Conn, id: string)
    decreases |events|
  {
    events == [] || (Careful(h, events[0], c, id) && AlwaysCareful(Step(h, events[0]), events[1..], c, id))
  }

  /** No answer outside a route names this request to this caller. */
  predicate NoneOutside(wire: seq<Signal>, c: Conn, id: string) {
    forall s <- wire :: s.conn == c && s.event.Send? && s.event.frame.exec == id ==> s.route != ""
  }

  // ----- One step --------------------------------------------------------------------------------------

  /** An error reply to the one who invoked, under the ID it gave. */
  ghost predicate AnswersItself(h: Hub, h': Hub, c: Conn, exec: string) {
    Discreet(h, h') || exists f: Frame :: f.exec == exec && L.IsReply(f) && h' == Tell(h, c, f)
  }

  lemma CancelAnswersItself(h: Hub, from: Conn, exec: string)
    requires Sane(h)
    ensures AnswersItself(h, Cancel(h, from, exec), from, exec)
    ensures RequestKey(from, exec) in h.requests ==> Discreet(h, Cancel(h, from, exec))
  {
    hide Sane, Talks, Discreet, Tell;
    if RequestKey(from, exec) in h.requests {
      RequestMeans(h, from, exec);
      CancelMoves(h, from, exec);
    } else {
      assert Cancel(h, from, exec) == Tell(h, from, Err(exec, UNKNOWN_EXEC)) && L.IsReply(Err(exec, UNKNOWN_EXEC));
    }
  }

  lemma InvokeAnswersItself(h: Hub, from: Conn, target: string, exec: string, op: string, env: Env)
    requires Sane(h) && RouteDrawn(h, env.route) && Visits(env.order, RoutesOf(h, target) + {env.route})
    ensures AnswersItself(h, HandleInvoke(h, from, target, exec, op, env), from, exec)
  {
    hide Sane, Talks, Discreet, Tell, Cancel, Dispatch, Refusal, RoutesOf, FreshRoute;
    StaysDiscreet(h);
    CancelAnswersItself(h, from, exec);
    if op != CANCEL && env.verdict == "" && Refusal(h, from, target, exec) == "" && env.route !in h.inflight {
      DispatchMoves(h, from, target, exec, op, env);
    }
    forall code ensures Nack(exec, code).exec == exec && L.IsReply(Nack(exec, code)) {}
  }

  lemma StaysDiscreet(h: Hub)
    ensures Discreet(h, h)
  {
    SilenceIsDiscreet(h, h);
  }

  lemma InvokesAnswersItself(h: Hub, e: Event)
    requires Sane(h) && e.Invokes? && Possible(h, e)
    ensures AnswersItself(h, Act(h, e), e.conn, e.exec)
  {
    hide Sane, Talks, Discreet, Tell, HandleInvoke, RoutesOf, FreshRoute;
    StaysDiscreet(h);
    assert Nack(e.exec, UNAUTHORIZED).exec == e.exec && L.IsReply(Nack(e.exec, UNAUTHORIZED));
    InvokeAnswersItself(h, e.conn, h.roles[e.conn].id, e.exec, e.op, e.env);
  }

  lemma TellKeepsOutside(h: Hub, c: Conn, f: Frame, k: Conn, id: string)
    requires NoneOutside(h.wire, k, id) && (c != k || f.exec != id)
    ensures NoneOutside(Tell(h, c, f).wire, k, id)
  {
    PutFields(h, c, O.Send(f), "");
    hide Put, O.Step;
  }

  lemma DiscreetKeepsOutside(h: Hub, h': Hub, c: Conn, id: string)
    requires Discreet(h, h') && NoneOutside(h.wire, c, id) && id != "" && !ToDevice(c, h'.roles)
    ensures NoneOutside(h'.wire, c, id)
  {
    forall s <- h'.wire | s.conn == c && s.event.Send? && s.event.frame.exec == id ensures s.route != "" {
      var i :| 0 <= i < |h'.wire| && h'.wire[i] == s;
      if i < |h.wire| {
        assert s == h.wire[i] && s in h.wire;
      } else {
        assert Plain(h'.wire[i], h'.roles);
      }
    }
  }

  lemma InvokesMeans(h: Hub, e: Event)
    requires e.Invokes? && Possible(h, e)
    ensures e.conn in h.roles
    ensures Act(h, e) == Invoked(h, e.conn, e.exec, e.op, e.env) && Step(h, e) == Act(h, e)
  {
    hide Invoked;
  }

  /** A careful invocation is not answered outside its route. */
  lemma DispatchedIsDiscreet(h: Hub, e: Event)
    requires Sane(h) && e.Invokes? && Possible(h, e) && Dispatched(h, e)
    ensures Discreet(h, Act(h, e))
  {
    hide Sane, Discreet, Step, Act, Possible, Put;
    InvokesMeans(h, e);
    InvokesAnswersItself(h, e);
    forall f: Frame ensures Tell(h, e.conn, f).issued == h.issued {
      SendFields(h, e.conn, O.Send(f), "");
    }
  }

  lemma CancelledIsDiscreet(h: Hub, e: Event)
    requires Sane(h) && e.Invokes? && Possible(h, e) && !ToDevice(e.conn, h.roles) && CancelsInFlight(h, e)
    ensures Discreet(h, Act(h, e))
  {
    hide Sane, Discreet, Step, Cancel, Act, Possible;
    InvokesMeans(h, e);
    StaysDiscreet(h);
    CancelAnswersItself(h, e.conn, e.exec);
  }

  lemma CarefulIsDiscreet(h: Hub, e: Event)
    requires Sane(h) && e.Invokes? && Possible(h, e) && !ToDevice(e.conn, h.roles)
    requires Dispatched(h, e) || CancelsInFlight(h, e)
    ensures Discreet(h, Act(h, e))
  {
    hide Sane, Discreet, Act, Possible, Dispatched, CancelsInFlight;
    if Dispatched(h, e) {
      DispatchedIsDiscreet(h, e);
    } else {
      CancelledIsDiscreet(h, e);
    }
  }

  lemma StepKeepsOutside(h: Hub, e: Event, c: Conn, id: string)
    requires Sane(h) && Careful(h, e, c, id) && NoneOutside(h.wire, c, id) && id != ""
    requires !ToDevice(c, h.roles) && !ToDevice(c, Step(h, e).roles)
    ensures NoneOutside(Step(h, e).wire, c, id)
  {
    hide Sane, Talks, Narrows, Discreet, Possible, Act, Dispatched, CancelsInFlight, NoneOutside;
    StepSane(h, e);
    if !e.Invokes? {
      DiscreetKeepsOutside(h, Step(h, e), c, id);
    } else if Possible(h, e) {
      if e.conn == c && e.exec == id {
        CarefulIsDiscreet(h, e);
        DiscreetKeepsOutside(h, Act(h, e), c, id);
      } else {
        InvokesAnswersItself(h, e);
        OthersKeepOutside(h, Act(h, e), e.conn, e.exec, c, id);
      }
    }
  }

  lemma OthersKeepOutside(h: Hub, h': Hub, k: Conn, exec: string, c: Conn, id: string)
    requires AnswersItself(h, h', k, exec) && NoneOutside(h.wire, c, id) && id != "" && (k != c || exec != id)
    requires !ToDevice(c, h'.roles)
    ensures NoneOutside(h'.wire, c, id)
  {
    hide Discreet, NoneOutside, Tell;
    if Discreet(h, h') {
      DiscreetKeepsOutside(h, h', c, id);
    } else {
      var f: Frame :| f.exec == exec && h' == Tell(h, k, f);
      TellKeepsOutside(h, k, f, c, id);
    }
  }

  // ----- Every history ---------------------------------------------------------------------------------

  lemma StepKeepsRoles(h: Hub, e: Event)
    requires Sane(h)
    ensures forall c <- h.roles :: c in Step(h, e).roles && Step(h, e).roles[c] == h.roles[c]
  {
    hide Sane, Narrows, Talks, Act, Possible;
    StepSane(h, e);
    if e.Invokes? && Possible(h, e) {
      InvokesAnswersItself(h, e);
      forall f: Frame ensures Tell(h, e.conn, f).roles == h.roles { SendFields(h, e.conn, O.Send(f), ""); }
    }
  }

  lemma {:induction false} RunKeepsRoles(h: Hub, events: seq<Event>)
    requires Sane(h)
    ensures forall c <- h.roles :: c in Run(h, events).roles && Run(h, events).roles[c] == h.roles[c]
    decreases |events|
  {
    hide Sane, Narrows, Step;
    if events != [] {
      StepSane(h, events[0]);
      StepKeepsRoles(h, events[0]);
      RunKeepsRoles(Step(h, events[0]), events[1..]);
    }
  }

  lemma {:induction false} RunKeepsOutside(h: Hub, events: seq<Event>, c: Conn, id: string)
    requires Sane(h) && AlwaysCareful(h, events, c, id) && NoneOutside(h.wire, c, id) && id != ""
    requires !ToDevice(c, Run(h, events).roles)
    ensures NoneOutside(Run(h, events).wire, c, id)
    decreases |events|
  {
    if events != [] {
      hide Sane, Narrows, Step, NoneOutside, Careful, Talks, Discreet;
      var h' := Step(h, events[0]);
      StepSane(h, events[0]);
      StepKeepsRoles(h, events[0]);
      RunKeepsRoles(h', events[1..]);
      StepKeepsOutside(h, events[0], c, id);
      RunKeepsOutside(h', events[1..], c, id);
    }
  }

  /** The only route made for this request of this caller. */
  predicate OnlyUse(h: Hub, r: string) {
    r in h.issued && forall q <- h.issued ::
      h.issued[q].client == h.issued[r].client && h.issued[q].request == h.issued[r].request ==> q == r
  }

  lemma CarefulIsUsedOnce(h: Hub, r: string)
    requires Sane(h) && OnlyUse(h, r) && NoneOutside(h.wire, h.issued[r].client, h.issued[r].request)
    ensures UsedOnce(h, r)
  {
    SaneIsWired(h);
    hide Sane, Routing, FinalIsGone, FinalIsLast, Answered, Replayed;
    forall s <- h.wire | s.conn == h.issued[r].client && s.event.Send? && s.event.frame.exec == h.issued[r].request
      ensures s.route == r
    {
      assert SignalOk(s, h.issued);
    }
  }

  /** Truncation honesty, in terms of what the caller does. A caller uses a request ID for one invoke and does
      not cancel it after its exit. When an exit without the truncation mark is written to it, the frames
      written under that ID before are exactly the output frames the device sent before its exit, in
      order, whatever was dropped by the reader, the byte budget, the outbox or eviction. */
  lemma {:induction false} TruncationHonesty(events: seq<Event>, r: string, e: nat)
    requires var h := Run(Fresh, events);
      && OnlyUse(h, r) && h.issued[r].request != ""
      && AlwaysCareful(Fresh, events, h.issued[r].client, h.issued[r].request)
      && h.issued[r].client in h.net
      && var written := h.net[h.issued[r].client].written;
         && e < |written| && written[e].exec == h.issued[r].request
         && written[e].kind == Exit && !written[e].truncated
    ensures var h := Run(Fresh, events);
      var issue := h.issued[r];
      var sent := Sent(h.heard, issue.via, r);
      exists m | 0 <= m < |sent| ::
        && sent[m].kind == Exit && NoTerminal(sent[..m])
        && P.Named(h.net[issue.client].written[..e], issue.request) == Output(sent[..m], issue.request)
  {
    hide Run, Sane, Narrows, UsedOnce, NoneOutside, AlwaysCareful, OnlyUse, P.Named, Sent, Output;
    var h := Run(Fresh, events);
    FreshIsSane();
    RunSane(Fresh, events);
    CallersAreNoDevices(h, r);
    NothingOutside(h.issued[r].client, h.issued[r].request);
    RunKeepsOutside(Fresh, events, h.issued[r].client, h.issued[r].request);
    CarefulIsUsedOnce(h, r);
    ExitVouches(events, r, e);
  }

  lemma NothingOutside(c: Conn, id: string)
    ensures NoneOutside(Fresh.wire, c, id)
  {
  }

  lemma CallersAreNoDevices(h: Hub, r: string)
    requires Sane(h) && OnlyUse(h, r)
    ensures r in h.issued && !ToDevice(h.issued[r].client, h.roles)
  {
    hide Inverse, CallersHeld, DevicesHeld, IssuesHeld, Counted, SlotRoles, ClientRoles, GateRoles, Joiners, Known, Records, Wired;
  }
}
