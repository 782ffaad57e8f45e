/** Exactly when queued output is lost without a mark, and two histories in which it is. */
module OutboxLosses {
  import opened Prelude
  import opened Frames
  import opened OutboxModel
  import opened OutboxPipeline

  predicate HasOutput(b: Outbox, id: string) {
    exists i <- b.queue :: Evicts(i, id)
  }

  /** The guard of the eviction, as a sender could check it beforehand. */
  predicate Evicting(b: Outbox, f: Frame) {
    !b.closing && !b.cancelled && Full(b, RetainedBytes(f)) && IsTerminal(f) && HasOutput(b, f.exec)
  }

  /** Something that was queued is queued no more. */
  predicate Loses(b: Outbox, f: Frame) {
    !(b.queue <= Enqueue(b, f).0.queue)
  }

  /** An exit that evicts says so, or is not queued at all because the connection ends. */
  predicate Admits(b: Outbox, f: Frame) {
    var (b', r) := Enqueue(b, f);
    f.kind == Exit && (r == Closed || (b'.queue != [] && b'.queue[|b'.queue| - 1].frame == f.(truncated := true)))
  }

  lemma {:induction false} KeptExactly(q: seq<Item>, id: string)
    ensures Kept(q, id) == q <==> forall i <- q :: !Evicts(i, id)
    ensures forall i <- Kept(q, id) :: !Evicts(i, id)
    ensures |Kept(q, id)| <= |q| && (|Kept(q, id)| == |q| ==> Kept(q, id) == q)
  {
    if q != [] {
      KeptExactly(q[1..], id);
      assert q == [q[0]] + q[1..];
    }
  }

  lemma ExactlyTheLosses(b: Outbox, f: Frame)
    ensures Loses(b, f) <==> Evicting(b, f)
  {
    KeptExactly(b.queue, f.exec);
    hide RetainedBytes, AddBuffered, Kept, Sum;
    if Evicting(b, f) {
      var i :| i in b.queue && Evicts(i, f.exec);
      assert forall j <- Enqueue(b, f).0.queue :: !Evicts(j, f.exec);
      assert b.queue <= Enqueue(b, f).0.queue ==> i in Enqueue(b, f).0.queue;
    }
  }

  /** A send evicts output without a mark exactly when the queue is full for its size, it is a terminal other
      than an exit, and output of its exec is queued. */
  lemma UnmarkedLossExactly(b: Outbox, f: Frame)
    ensures Loses(b, f) && !Admits(b, f) <==> Evicting(b, f) && f.kind != Exit
  {
    ExactlyTheLosses(b, f);
    KeptExactly(b.queue, f.exec);
    hide RetainedBytes, AddBuffered, Kept, Sum, Loses;
  }

  // ----- Over a whole history --------------------------------------------------------------------------

  lemma {:induction false} KeptCount(q: seq<Item>, id: string)
    ensures |Named(FramesOf(Kept(q, id)), id)| + (|q| - |Kept(q, id)|) == |Named(FramesOf(q), id)|
  {
    if q != [] {
      KeptCount(q[1..], id);
      var head := if Evicts(q[0], id) then [] else [q[0]];
      FramesConcat(head, Kept(q[1..], id));
      OneFrame(q[0].frame, id);
      NamedConcat(FramesOf(head), FramesOf(Kept(q[1..], id)), id);
      NamedConcat([q[0].frame], FramesOf(q[1..]), id);
    }
  }

  /** How many frames of the exec one event evicts. */
  function Evicted(b: Outbox, e: Event, id: string): nat {
    KeptExactly(b.queue, id);
    if SendsTo(e, id) && Evicting(b, e.frame) then |b.queue| - |Kept(b.queue, id)| else 0
  }

  function Lost(events: seq<Event>, id: string): nat {
    if events == [] then 0
    else
      var before, e := events[..|events| - 1], events[|events| - 1];
      Lost(before, id) + Evicted(After(before), e, id)
  }

  lemma LostMore(before: seq<Event>, e: Event, id: string)
    ensures Lost(before + [e], id) == Lost(before, id) + Evicted(After(before), e, id)
  {
    assert (before + [e])[..|before|] == before;
  }

  lemma EvictedMeans(b: Outbox, e: Event, id: string)
    ensures Evicted(b, e, id) > 0 <==> SendsTo(e, id) && Evicting(b, e.frame)
  {
    KeptExactly(b.queue, id);
  }

  lemma PipeDiscardCount(b: Outbox, id: string)
    ensures |Named(Pipe(Discard(b, id).0), id)| + (|b.queue| - |Kept(b.queue, id)|) == |Named(Pipe(b), id)|
  {
    var front := if b.writing.Some? then [b.writing.value] else [];
    PipeParts(b, front, b.queue, id);
    PipeParts(Discard(b, id).0, front, Kept(b.queue, id), id);
    KeptCount(b.queue, id);
  }

  /** A terminal that meets the guard: what it adds and what it costs. */
  lemma CostlyEnd(b: Outbox, f: Frame, id: string)
    requires f.exec == id && Evicting(b, f)
    ensures var (b', r) := Enqueue(b, f);
      |Named(Pipe(b'), id)| + (|b.queue| - |Kept(b.queue, id)|) == |Named(Pipe(b), id)| + (if r == Accepted then 1 else 0)
  {
    hide Pipe, Named, Append, RetainedBytes, Kept, Sum, AddBuffered, Evicting;
    var d := Discard(b, id).0;
    PipeDiscardCount(b, id);
    PipeAppend(d, f, id);
    PipeAppend(d, f.(truncated := true), id);
    PipeFlags(d, d.(closing := true, cancelled := true));
    CostlyMarks(b, f);
    hide Discard, Enqueue;
  }

  /** Any other terminal costs nothing. */
  lemma CheapEnd(b: Outbox, f: Frame, id: string)
    requires f.exec == id && IsTerminal(f) && !Evicting(b, f)
    ensures var (b', r) := Enqueue(b, f);
      Named(Pipe(b'), id) == Named(Pipe(b), id) + if r == Accepted then [f] else []
  {
    hide Pipe, Named, Append, RetainedBytes, Kept, Sum, AddBuffered;
    var d := Discard(b, id).0;
    PipeDiscardOwn(b, id);
    PipeAppend(b, f, id);
    PipeAppend(d, f, id);
    PipeFlags(d, d.(closing := true, cancelled := true));
    assert Named(Pipe(b), id) + [] == Named(Pipe(b), id);
    CheapShape(b, f);
    hide Discard, Enqueue, Evicting;
  }

  lemma CheapShape(b: Outbox, f: Frame)
    requires IsTerminal(f) && !Evicting(b, f)
    ensures var (d, dropped) := Discard(b, f.exec);
      || Enqueue(b, f) == (b, Closed)
      || Enqueue(b, f) == (Append(b, f), Accepted)
      || (!dropped && Enqueue(b, f) == (d.(closing := true, cancelled := true), Closed))
      || (!dropped && Enqueue(b, f) == (Append(d, f), Accepted))
  {
    KeptExactly(b.queue, f.exec);
    hide Append, RetainedBytes, Kept, Sum, AddBuffered;
  }

  /** A terminal of the exec: what it adds and what it costs. */
  lemma EndCounts(b: Outbox, f: Frame, id: string)
    requires f.exec == id && IsTerminal(f)
    ensures var (b', r) := Enqueue(b, f);
      && |Named(Pipe(b'), id)| + Evicted(b, Send(f), id) == |Named(Pipe(b), id)| + (if r == Accepted then 1 else 0)
      && (Evicted(b, Send(f), id) == 0 ==>
            Named(Pipe(b'), id) == Named(Pipe(b), id) + if r == Accepted then [f] else [])
  {
    hide Pipe, Named, Enqueue, Kept, Evicting;
    EvictedMeans(b, Send(f), id);
    if Evicting(b, f) {
      CostlyEnd(b, f, id);
    } else {
      CheapEnd(b, f, id);
    }
  }

  /** What is accepted and not shown was evicted. */
  ghost predicate Balanced(events: seq<Event>, id: string) {
    var b, shown, accepted := After(events), Named(Pipe(After(events)), id), Accepts(events, id);
    && (b.stopped ==> b.closing)
    && (!b.stopped ==> |shown| + Lost(events, id) == |accepted| && (Lost(events, id) == 0 ==> shown == accepted))
  }

  lemma BalanceStep(before: seq<Event>, e: Event, id: string)
    requires Balanced(before, id)
    ensures Balanced(before + [e], id)
  {
    var b := After(before);
    RunMore(EmptyOutbox, before, e);
    AcceptsMore(before, e, id);
    LostMore(before, e, id);
    EvictedMeans(b, e, id);
    assert Accepts(before, id) + [] == Accepts(before, id) && Named(Pipe(b), id) + [] == Named(Pipe(b), id);
    hide Pipe, Named, Enqueue, Accepts, Lost, Evicted, Evicting;
    if !e.Send? {
      OtherTurn(b, e, id);
    } else {
      ClosedStays(b, e.frame);
      if e.frame.exec != id {
        OtherSend(b, e.frame, id);
      } else if IsTerminal(e.frame) {
        EndCounts(b, e.frame, id);
      } else {
        OutputEvictsNothing(b, e.frame);
        OwnOutput(b, e.frame, id);
      }
    }
  }

  lemma OutputEvictsNothing(b: Outbox, f: Frame)
    requires !IsTerminal(f)
    ensures !Evicting(b, f)
  {
  }

  lemma {:induction false} AlwaysBalanced(events: seq<Event>, id: string)
    ensures Balanced(events, id)
  {
    hide Step, Enqueue;
    if events == [] {
      assert Pipe(EmptyOutbox) == [];
    } else {
      var before, e := events[..|events| - 1], events[|events| - 1];
      assert before + [e] == events;
      hide Balanced;
      AlwaysBalanced(before, id);
      BalanceStep(before, e, id);
    }
  }

  /** No send of the history met the eviction's guard for this exec. */
  predicate NeverEvicting(events: seq<Event>, id: string) {
    forall i | 0 <= i < |events| :: SendsTo(events[i], id) ==> !Evicting(After(events[..i]), events[i].frame)
  }

  lemma NeverMore(before: seq<Event>, e: Event, id: string)
    ensures NeverEvicting(before + [e], id)
      <==> NeverEvicting(before, id) && (SendsTo(e, id) ==> !Evicting(After(before), e.frame))
  {
    var events := before + [e];
    hide Evicting, Run;
    assert forall i | 0 <= i < |before| :: events[i] == before[i] && events[..i] == before[..i];
    assert events[..|before|] == before && events[|before|] == e;
  }

  lemma {:induction false} LostNothing(events: seq<Event>, id: string)
    ensures Lost(events, id) == 0 <==> NeverEvicting(events, id)
  {
    if events != [] {
      var before, e := events[..|events| - 1], events[|events| - 1];
      assert before + [e] == events;
      LostNothing(before, id);
      EvictedMeans(After(before), e, id);
      LostMore(before, e, id);
      NeverMore(before, e, id);
      hide NeverEvicting, Lost, Evicted, Evicting, Run;
    }
  }

  /** As long as the writer runs, what was written, is being written and is queued under an exec ID is exactly
      what was accepted under it if and only if no send of the history met the guard. */
  lemma NothingLostExactly(events: seq<Event>, id: string)
    requires !After(events).stopped
    ensures Named(Pipe(After(events)), id) == Accepts(events, id) <==> NeverEvicting(events, id)
  {
    AlwaysBalanced(events, id);
    LostNothing(events, id);
    hide Pipe, Named, Accepts, Lost, NeverEvicting, Run;
  }

  // ----- When an exit vouches for output that is gone -------------------------------------------------

  predicate Plain(f: Frame) {
    f.kind == Exit && !f.truncated
  }

  /** An exit that is not marked has been written, is being written or is queued. */
  predicate ShowsPlain(b: Outbox, id: string) {
    exists f <- Pipe(b) :: f.exec == id && Plain(f)
  }

  /** An unmarked exit is sent and accepted, and did not meet the guard. */
  predicate PlainSend(b: Outbox, e: Event, id: string) {
    SendsTo(e, id) && Plain(e.frame) && Enqueue(b, e.frame).1 == Accepted && !Evicting(b, e.frame)
  }

  predicate SentPlain(events: seq<Event>, id: string) {
    exists i | 0 <= i < |events| :: PlainSend(After(events[..i]), events[i], id)
  }

  lemma {:induction false} KeptControl(q: seq<Item>, id: string)
    ensures forall f :: !IsOutput(f) ==> (f in FramesOf(Kept(q, id)) <==> f in FramesOf(q))
  {
    if q != [] {
      KeptControl(q[1..], id);
      var head := if Evicts(q[0], id) then [] else [q[0]];
      FramesConcat(head, Kept(q[1..], id));
      OneFrame(q[0].frame, id);
    }
  }

  lemma PlainAppend(b: Outbox, f: Frame, id: string)
    ensures ShowsPlain(Append(b, f), id) <==> ShowsPlain(b, id) || (f.exec == id && Plain(f))
  {
    var item := Item(f, RetainedBytes(f));
    assert Held(Append(b, f)) == Held(b) + [item];
    FramesConcat(Held(b), [item]);
    OneFrame(f, id);
    assert Pipe(Append(b, f)) == Pipe(b) + [f];
    hide Pipe, Append;
    assert f in Pipe(b) + [f];
  }

  lemma PlainDiscard(b: Outbox, gone: string, id: string)
    ensures ShowsPlain(Discard(b, gone).0, id) <==> ShowsPlain(b, id)
  {
    var front := if b.writing.Some? then [b.writing.value] else [];
    FramesConcat(front, b.queue);
    FramesConcat(front, Kept(b.queue, gone));
    KeptControl(b.queue, gone);
    hide FramesOf, Kept, Sum;
  }

  lemma PlainSends(b: Outbox, f: Frame, id: string)
    ensures ShowsPlain(Enqueue(b, f).0, id) <==> ShowsPlain(b, id) || PlainSend(b, Send(f), id)
  {
    hide ShowsPlain, Append, RetainedBytes, Kept, Sum, AddBuffered, Pipe;
    var d := Discard(b, f.exec).0;
    PlainDiscard(b, f.exec, id);
    PlainAppend(b, f, id);
    PlainAppend(d, f, id);
    PlainAppend(d, f.(truncated := true), id);
    PlainFlags(d, id);
    PlainFlags(b, id);
    if Evicting(b, f) {
      CostlyMarks(b, f);
      hide Discard, Enqueue, Evicting;
    } else if IsTerminal(f) {
      CheapShape(b, f);
      hide Discard, Enqueue, Evicting;
    }
  }

  lemma CostlyMarks(b: Outbox, f: Frame)
    requires Evicting(b, f)
    ensures var d := Discard(b, f.exec).0;
      || Enqueue(b, f) == (d.(closing := true, cancelled := true), Closed)
      || (f.kind != Exit && Enqueue(b, f) == (Append(d, f), Accepted))
      || (f.kind == Exit && Enqueue(b, f) == (Append(d, f.(truncated := true)), Accepted))
  {
    KeptExactly(b.queue, f.exec);
    hide Append, RetainedBytes, Kept, Sum, AddBuffered;
  }

  lemma PlainFlags(b: Outbox, id: string)
    ensures ShowsPlain(b.(closing := true, cancelled := true), id) == ShowsPlain(b, id)
  {
    PipeFlags(b, b.(closing := true, cancelled := true));
  }

  lemma SentMore(before: seq<Event>, e: Event, id: string)
    ensures SentPlain(before + [e], id) <==> SentPlain(before, id) || PlainSend(After(before), e, id)
  {
    var events := before + [e];
    hide PlainSend, Run;
    assert forall i | 0 <= i < |before| :: events[i] == before[i] && events[..i] == before[..i];
    assert events[..|before|] == before && events[|before|] == e;
  }

  lemma {:induction false} PlainIffSent(events: seq<Event>, id: string)
    requires !After(events).stopped
    ensures ShowsPlain(After(events), id) <==> SentPlain(events, id)
  {
    if events == [] {
      assert Pipe(EmptyOutbox) == [];
    } else {
      hide ShowsPlain, SentPlain, Run, Enqueue, Pipe, Drain;
      var before, e := events[..|events| - 1], events[|events| - 1];
      assert before + [e] == events;
      RunMore(EmptyOutbox, before, e);
      SentMore(before, e, id);
      if e.Send? {
        ClosedStays(After(before), e.frame);
        PlainSends(After(before), e.frame, id);
      } else {
        OtherTurn(After(before), e, id);
        SamePipe(After(before), After(events), id);
      }
      PlainIffSent(before, id);
    }
  }

  lemma SamePipe(b: Outbox, b': Outbox, id: string)
    ensures Pipe(b) == Pipe(b') ==> ShowsPlain(b, id) == ShowsPlain(b', id)
  {
  }

  /** As long as the writer runs, an unmarked exit stands in for accepted frames that are missing if and only if
      some unmarked exit was accepted without meeting the guard and some send of its exec did meet it. */
  lemma DishonestExactly(events: seq<Event>, id: string)
    requires !After(events).stopped
    ensures ShowsPlain(After(events), id) && Named(Pipe(After(events)), id) != Accepts(events, id)
      <==> SentPlain(events, id) && !NeverEvicting(events, id)
  {
    hide ShowsPlain, SentPlain, Pipe, Named, Accepts, NeverEvicting, Run;
    NothingLostExactly(events, id);
    PlainIffSent(events, id);
  }

  // ----- Where the first loss shows, whether or not the writer still runs ------------------------------

  /** How many frames of the exec stand in the queue before its first output. */
  function Lead(q: seq<Item>, id: string): nat {
    if q == [] || Evicts(q[0], id) then 0 else (if q[0].frame.exec == id then 1 else 0) + Lead(q[1..], id)
  }

  /** What the writer has already taken. */
  function Gone(b: Outbox): seq<Frame> {
    b.written + if b.writing.Some? then [b.writing.value.frame] else []
  }

  /** How many frames of the exec are ahead of all its output in the queue. */
  function Ahead(b: Outbox, id: string): nat {
    |Named(Gone(b), id)| + Lead(b.queue, id)
  }

  lemma GoneAndQueue(b: Outbox, id: string)
    ensures Named(Pipe(b), id) == Named(Gone(b), id) + Named(FramesOf(b.queue), id)
  {
    var front := if b.writing.Some? then [b.writing.value] else [];
    PipeParts(b, front, b.queue, id);
    NamedConcat(b.written, FramesOf(front), id);
    assert b.writing.Some? ==> [b.writing.value][1..] == [];
    assert Gone(b) == b.written + FramesOf(front);
  }

  lemma NamedHead(i: Item, rest: seq<Item>, id: string)
    ensures Named(FramesOf([i] + rest), id) == (if i.frame.exec == id then [i.frame] else []) + Named(FramesOf(rest), id)
  {
    FramesConcat([i], rest);
    OneFrame(i.frame, id);
    NamedConcat([i.frame], FramesOf(rest), id);
  }

  /** The eviction leaves what stands ahead of the output as it was, and nothing but control frames after it. */
  lemma KeptLead(q: seq<Item>, id: string)
    ensures var all, kept, n := Named(FramesOf(q), id), Named(FramesOf(Kept(q, id)), id), Lead(q, id);
      && n <= |kept| <= |all| && kept[..n] == all[..n]
      && ((exists i <- q :: Evicts(i, id)) ==> n < |all| && IsOutput(all[n]))
      && (forall f <- kept :: !IsOutput(f))
  {
    LeadStays(q, id);
    LeadOutput(q, id);
    KeptIsControl(q, id);
    hide Named, FramesOf, Kept, Lead;
  }

  /** The queue and what is kept of it, frame by frame. */
  lemma KeptNamedHead(q: seq<Item>, id: string)
    requires q != []
    ensures var one := if q[0].frame.exec == id then [q[0].frame] else [];
      && Named(FramesOf(q), id) == one + Named(FramesOf(q[1..]), id)
      && Named(FramesOf(Kept(q, id)), id) == (if Evicts(q[0], id) then [] else one) + Named(FramesOf(Kept(q[1..], id)), id)
  {
    NamedHead(q[0], q[1..], id);
    NamedHead(q[0], Kept(q[1..], id), id);
    assert q == [q[0]] + q[1..];
    assert [] + Kept(q[1..], id) == Kept(q[1..], id);
    hide Named, FramesOf;
  }

  lemma {:induction false} LeadStays(q: seq<Item>, id: string)
    ensures var all, kept, n := Named(FramesOf(q), id), Named(FramesOf(Kept(q, id)), id), Lead(q, id);
      n <= |kept| <= |all| && kept[..n] == all[..n]
  {
    if q != [] {
      LeadStays(q[1..], id);
      KeptNamedHead(q, id);
      hide Named, FramesOf, Kept;
    }
  }

  lemma {:induction false} LeadOutput(q: seq<Item>, id: string)
    ensures var all, n := Named(FramesOf(q), id), Lead(q, id);
      (exists i <- q :: Evicts(i, id)) ==> n < |all| && IsOutput(all[n])
  {
    if q != [] {
      LeadOutput(q[1..], id);
      KeptNamedHead(q, id);
      assert q == [q[0]] + q[1..];
      hide Named, FramesOf, Kept;
    }
  }

  lemma {:induction false} KeptIsControl(q: seq<Item>, id: string)
    ensures forall f <- Named(FramesOf(Kept(q, id)), id) :: !IsOutput(f)
  {
    if q != [] {
      KeptIsControl(q[1..], id);
      KeptNamedHead(q, id);
      hide Named, FramesOf, Kept;
    }
  }

  lemma {:induction false} LeadGrows(q: seq<Item>, other: string, i: Item, id: string)
    ensures Lead(q, id) <= Lead(Kept(q, other), id) && Lead(q, id) <= Lead(q + [i], id)
  {
    if q != [] {
      LeadGrows(q[1..], other, i, id);
      assert (q + [i])[1..] == q[1..] + [i];
      var rest := Kept(q[1..], other);
      if Evicts(q[0], other) {
        assert [] + rest == rest;
      } else {
        assert ([q[0]] + rest)[1..] == rest;
      }
    }
  }

  /** No send puts anything ahead of what is queued. */
  lemma AheadGrows(b: Outbox, f: Frame, id: string)
    ensures Ahead(b, id) <= Ahead(Enqueue(b, f).0, id)
  {
    hide Named, Lead, Kept, Full, RetainedBytes, Sum, AddBuffered;
    var i := Item(f, RetainedBytes(f));
    var marked := Item(f.(truncated := true), RetainedBytes(f.(truncated := true)));
    LeadGrows(b.queue, f.exec, i, id);
    LeadGrows(Kept(b.queue, f.exec), f.exec, i, id);
    LeadGrows(Kept(b.queue, f.exec), f.exec, marked, id);
  }

  lemma AheadTurns(b: Outbox, e: Event, id: string)
    requires !e.Send? && !Step(b, e).stopped
    ensures Ahead(b, id) <= Ahead(Step(b, e), id)
  {
    if e.Turn? && b.writing.Some? {
      assert Gone(Step(b, e)) == Gone(b);
    } else if e.Turn? && b.queue != [] {
      NamedConcat(b.written, [b.queue[0].frame], id);
      OneFrame(b.queue[0].frame, id);
      assert Gone(b) == b.written && Gone(Step(b, e)) == b.written + [b.queue[0].frame];
    } else {
      assert Gone(Step(b, e)) == Gone(b);
    }
  }

  /** The place of the first loss: how many frames of the exec were ahead of its queued output when a send first
      met the guard. */
  function FirstLoss(events: seq<Event>, id: string): Option<nat> {
    if events == [] then None
    else
      var before, e := events[..|events| - 1], events[|events| - 1];
      if FirstLoss(before, id).Some? then FirstLoss(before, id)
      else if SendsTo(e, id) && Evicting(After(before), e.frame) then Some(Ahead(After(before), id)) else None
  }

  lemma FirstLossMore(before: seq<Event>, e: Event, id: string)
    ensures FirstLoss(before + [e], id) ==
      if FirstLoss(before, id).Some? then FirstLoss(before, id)
      else if SendsTo(e, id) && Evicting(After(before), e.frame) then Some(Ahead(After(before), id)) else None
  {
    assert (before + [e])[..|before|] == before;
  }

  /** What is shown agrees with what was accepted up to the first loss; there one is output and the other not. */
  ghost predicate Torn(b: Outbox, id: string, accepted: seq<Frame>, k: nat) {
    var shown := Named(Pipe(b), id);
    && k < |accepted| && IsOutput(accepted[k])
    && (forall i | 0 <= i < k && i < |shown| :: shown[i] == accepted[i])
    && (k < |shown| ==> !IsOutput(shown[k]))
    && (!b.stopped ==> k <= Ahead(b, id) && (k < |shown| || b.closing || b.cancelled))
  }

  ghost predicate Placed(events: seq<Event>, id: string) {
    var b, shown, accepted := After(events), Named(Pipe(After(events)), id), Accepts(events, id);
    && (b.stopped ==> b.closing)
    && match FirstLoss(events, id)
       case None => shown <= accepted && (!b.stopped ==> shown == accepted)
       case Some(k) => Torn(b, id, accepted, k)
  }

  lemma TurnKeepsTorn(b: Outbox, e: Event, id: string, accepted: seq<Frame>, k: nat)
    requires Torn(b, id, accepted, k) && !e.Send?
    ensures Torn(Step(b, e), id, accepted, k)
  {
    OtherTurn(b, e, id);
    if !Step(b, e).stopped {
      AheadTurns(b, e, id);
    }
    hide Step, Pipe, Named, Ahead;
  }

  /** A send that evicts nothing of the exec. */
  lemma SendKeepsTorn(b: Outbox, f: Frame, id: string, accepted: seq<Frame>, k: nat)
    requires Torn(b, id, accepted, k) && (b.stopped ==> b.closing) && (f.exec == id ==> !Evicting(b, f))
    ensures Torn(Enqueue(b, f).0, id, accepted + (if f.exec == id && Enqueue(b, f).1 == Accepted then [f] else []), k)
  {
    AheadGrows(b, f, id);
    ClosedStays(b, f);
    if f.exec != id {
      OtherSend(b, f, id);
    } else {
      CheapSend(b, f, id);
    }
    assert accepted + [] == accepted && Named(Pipe(b), id) + [] == Named(Pipe(b), id);
    hide Enqueue, Pipe, Named, Ahead, Evicting;
    TornOn(b, Enqueue(b, f).0, id, accepted, if f.exec == id && Enqueue(b, f).1 == Accepted then [f] else [], k);
  }

  lemma TornOn(b: Outbox, b': Outbox, id: string, accepted: seq<Frame>, more: seq<Frame>, k: nat)
    requires Torn(b, id, accepted, k) && Named(Pipe(b'), id) == Named(Pipe(b), id) + more && Ahead(b, id) <= Ahead(b', id)
    requires b'.stopped == b.stopped && (b.closing ==> b'.closing) && (b.cancelled ==> b'.cancelled)
    requires b.closing || b.cancelled ==> more == []
    requires b.stopped ==> b.closing
    ensures Torn(b', id, accepted + more, k)
  {
    hide Pipe, Named, Ahead;
  }

  lemma CheapSend(b: Outbox, f: Frame, id: string)
    requires f.exec == id && !Evicting(b, f)
    ensures var (b', r) := Enqueue(b, f);
      Named(Pipe(b'), id) == Named(Pipe(b), id) + if r == Accepted then [f] else []
  {
    if IsTerminal(f) {
      CheapEnd(b, f, id);
    } else {
      OwnOutput(b, f, id);
    }
  }

  /** What an eviction leaves of the pipeline. */
  lemma PipeKept(b: Outbox, id: string)
    requires HasOutput(b, id)
    ensures var all, kept, k := Named(Pipe(b), id), Named(Pipe(Discard(b, id).0), id), Ahead(b, id);
      && k <= |kept| && k < |all| && kept[..k] == all[..k] && IsOutput(all[k])
      && (forall i | k <= i < |kept| :: !IsOutput(kept[i]))
  {
    GoneAndQueue(b, id);
    GoneAndQueue(Discard(b, id).0, id);
    KeptLead(b.queue, id);
    hide Pipe, Named, FramesOf, Kept, Lead, Sum, AddBuffered;
    var all, kept := Named(FramesOf(b.queue), id), Named(FramesOf(Kept(b.queue, id)), id);
    var g, n := Named(Gone(b), id), Lead(b.queue, id);
    assert (g + kept)[..|g| + n] == g + kept[..n] == g + all[..n] == (g + all)[..|g| + n];
    assert forall i | 0 <= i < |kept| :: kept[i] in kept;
  }

  /** A send that evicts: what is left, then the terminal if it was accepted. */
  lemma CostlyPipe(b: Outbox, f: Frame, id: string)
    requires f.exec == id && Evicting(b, f)
    ensures var (b', r) := Enqueue(b, f);
      var kept, shown := Named(Pipe(Discard(b, id).0), id), Named(Pipe(b'), id);
      || (r == Closed && shown == kept && b'.cancelled)
      || (r == Accepted && exists g: Frame :: g.kind == f.kind && !IsOutput(g) && !Plain(g) && shown == kept + [g])
  {
    hide Pipe, Named, Append, RetainedBytes, Kept, Sum, AddBuffered, Evicting;
    var d := Discard(b, id).0;
    PipeAppend(d, f, id);
    PipeAppend(d, f.(truncated := true), id);
    PipeFlags(d, d.(closing := true, cancelled := true));
    CostlyMarks(b, f);
    TerminalOnly(b, f);
    hide Discard, Enqueue;
    assert !IsOutput(f) && !IsOutput(f.(truncated := true));
  }

  lemma TerminalOnly(b: Outbox, f: Frame)
    requires Evicting(b, f)
    ensures IsTerminal(f) && HasOutput(b, f.exec) && !b.closing && !b.cancelled
  {
  }

  lemma CostlyTears(b: Outbox, f: Frame, id: string, accepted: seq<Frame>)
    requires f.exec == id && Evicting(b, f) && !b.stopped && Named(Pipe(b), id) == accepted
    ensures Torn(Enqueue(b, f).0, id, accepted + (if Enqueue(b, f).1 == Accepted then [f] else []), Ahead(b, id))
  {
    TerminalOnly(b, f);
    AheadGrows(b, f, id);
    PipeKept(b, id);
    CostlyPipe(b, f, id);
    hide Enqueue, Pipe, Named, Ahead, Evicting, Discard, HasOutput, Plain;
    PrefixEntries(Named(Pipe(Discard(b, id).0), id), accepted, Ahead(b, id));
    TornNow(Enqueue(b, f).0, id, Named(Pipe(Discard(b, id).0), id), accepted, f, Enqueue(b, f).1, Ahead(b, id));
  }

  lemma TornNow(b: Outbox, id: string, kept: seq<Frame>, accepted: seq<Frame>, f: Frame, r: Admission, k: nat)
    requires k <= |kept| && k < |accepted| && IsOutput(accepted[k]) && k <= Ahead(b, id)
    requires forall i | 0 <= i < k :: kept[i] == accepted[i]
    requires k < |kept| ==> !IsOutput(kept[k])
    requires var shown := Named(Pipe(b), id);
      || (r == Closed && shown == kept && b.cancelled)
      || (r == Accepted && exists g: Frame :: !IsOutput(g) && shown == kept + [g])
    ensures Torn(b, id, accepted + (if r == Accepted then [f] else []), k)
  {
    hide Pipe, Named, Ahead;
  }

  lemma CostlyKeepsTorn(b: Outbox, f: Frame, id: string, accepted: seq<Frame>, k: nat)
    requires f.exec == id && Evicting(b, f) && !b.stopped && Torn(b, id, accepted, k)
    ensures Torn(Enqueue(b, f).0, id, accepted + (if Enqueue(b, f).1 == Accepted then [f] else []), k)
  {
    TerminalOnly(b, f);
    AheadGrows(b, f, id);
    PipeKept(b, id);
    CostlyPipe(b, f, id);
    hide Enqueue, Pipe, Named, Ahead, Evicting, Discard, HasOutput, Plain;
    StaysTorn(Named(Pipe(b), id), Named(Pipe(Discard(b, id).0), id), accepted, k, Ahead(b, id));
    TornNow(Enqueue(b, f).0, id, Named(Pipe(Discard(b, id).0), id), accepted, f, Enqueue(b, f).1, k);
  }

  lemma StaysTorn(all: seq<Frame>, kept: seq<Frame>, accepted: seq<Frame>, k: nat, n: nat)
    requires k <= n <= |kept| && n < |all| && kept[..n] == all[..n] && k < |accepted|
    requires forall i | 0 <= i < k && i < |all| :: all[i] == accepted[i]
    requires k < |all| ==> !IsOutput(all[k])
    requires forall i | n <= i < |kept| :: !IsOutput(kept[i])
    ensures forall i | 0 <= i < k :: kept[i] == accepted[i]
    ensures k < |kept| ==> !IsOutput(kept[k])
  {
    PrefixEntries(kept, all, n);
  }

  lemma PrefixEntries(a: seq<Frame>, b: seq<Frame>, n: nat)
    requires n <= |a| && n <= |b| && a[..n] == b[..n]
    ensures forall i | 0 <= i < n :: a[i] == b[i]
  {
    forall i | 0 <= i < n ensures a[i] == b[i] {
      assert a[i] == a[..n][i] == b[..n][i];
    }
  }

  lemma PlaceStep(before: seq<Event>, e: Event, id: string)
    requires Placed(before, id)
    ensures Placed(before + [e], id)
  {
    var b, accepted := After(before), Accepts(before, id);
    RunMore(EmptyOutbox, before, e);
    AcceptsMore(before, e, id);
    FirstLossMore(before, e, id);
    hide Pipe, Named, Enqueue, Accepts, FirstLoss, Evicting, Torn, Ahead, Run;
    if e.Send? {
      ClosedStays(b, e.frame);
      SentPlace(before, e, id);
    } else {
      OtherTurn(b, e, id);
      assert accepted + [] == accepted;
      if FirstLoss(before, id).Some? {
        TurnKeepsTorn(b, e, id, accepted, FirstLoss(before, id).value);
      }
    }
  }

  lemma SentPlace(before: seq<Event>, e: Event, id: string)
    requires Placed(before, id) && e.Send?
    ensures var b, r, loss := Enqueue(After(before), e.frame).0, Enqueue(After(before), e.frame).1, FirstLoss(before, id);
      var accepted := Accepts(before, id) + if SendsTo(e, id) && r == Accepted then [e.frame] else [];
      match loss
      case Some(k) => Torn(b, id, accepted, k)
      case None =>
        if SendsTo(e, id) && Evicting(After(before), e.frame) then Torn(b, id, accepted, Ahead(After(before), id))
        else Named(Pipe(b), id) <= accepted && (!b.stopped ==> Named(Pipe(b), id) == accepted)
  {
    var b, f, accepted := After(before), e.frame, Accepts(before, id);
    ClosedStays(b, f);
    var evicts := SendsTo(e, id) && Evicting(b, f);
    if evicts {
      TerminalOnly(b, f);
    } else if f.exec == id {
      CheapSend(b, f, id);
    } else {
      OtherSend(b, f, id);
    }
    assert accepted + [] == accepted && Named(Pipe(b), id) + [] == Named(Pipe(b), id);
    hide Pipe, Named, Enqueue, Accepts, FirstLoss, Evicting, Torn, Ahead, Run;
    match FirstLoss(before, id)
    case Some(k) =>
      if evicts { CostlyKeepsTorn(b, f, id, accepted, k); } else { SendKeepsTorn(b, f, id, accepted, k); }
    case None =>
      if evicts { CostlyTears(b, f, id, accepted); }
  }

  lemma {:induction false} AlwaysPlaced(events: seq<Event>, id: string)
    ensures Placed(events, id)
  {
    hide Step, Enqueue;
    if events == [] {
      assert Pipe(EmptyOutbox) == [];
    } else {
      var before, e := events[..|events| - 1], events[|events| - 1];
      assert before + [e] == events;
      hide Placed;
      AlwaysPlaced(before, id);
      PlaceStep(before, e, id);
    }
  }

  /** In every history, also one whose writer has stopped: a frame written under an exec ID vouches for what was
      accepted before it, so that it and the frames written before it are a first part of what was accepted, if and
      only if no send met the guard, or the frame was already ahead of the output that the first such send
      evicted. */
  lemma WrittenVouchesExactly(events: seq<Event>, e: nat, id: string)
    requires var written := After(events).written; e < |written| && written[e].exec == id
    ensures var written := After(events).written;
      var earlier, loss := Named(written[..e], id), FirstLoss(events, id);
      earlier + [written[e]] <= Accepts(events, id) <==> loss.None? || |earlier| < loss.value
  {
    AlwaysPlaced(events, id);
    AroundWritten(After(events), e, id);
    hide Run, Pipe, Named, Accepts, FirstLoss, Ahead;
    var b, shown, accepted := After(events), Named(Pipe(After(events)), id), Accepts(events, id);
    var front := Named(b.written[..e], id) + [b.written[e]];
    assert forall i | 0 <= i < |front| :: front[i] == shown[i];
    if FirstLoss(events, id).Some? {
      var k := FirstLoss(events, id).value;
      if |front| <= k {
        assert front == accepted[..|front|];
      } else {
        assert front[k] != accepted[k];
      }
    }
  }

  lemma {:induction false} NoLossExactly(events: seq<Event>, id: string)
    ensures FirstLoss(events, id).None? <==> NeverEvicting(events, id)
  {
    if events != [] {
      var before, e := events[..|events| - 1], events[|events| - 1];
      assert before + [e] == events;
      NoLossExactly(before, id);
      FirstLossMore(before, e, id);
      NeverMore(before, e, id);
      hide NeverEvicting, FirstLoss, Evicting, Run, Ahead;
    }
  }

  // ----- What is not a reply -----------------------------------------------------------------------------

  predicate IsReply(f: Frame) {
    f.kind == Error || f.kind == InvokeNack
  }

  /** The frames that are no error replies. */
  function Content(fs: seq<Frame>): seq<Frame> {
    if fs == [] then [] else (if IsReply(fs[0]) then [] else [fs[0]]) + Content(fs[1..])
  }

  lemma {:induction false} ContentConcat(a: seq<Frame>, b: seq<Frame>)
    ensures Content(a + b) == Content(a) + Content(b)
  {
    if a == [] {
      assert a + b == b;
    } else {
      assert (a + b)[0] == a[0] && (a + b)[1..] == a[1..] + b;
      ContentConcat(a[1..], b);
    }
  }

  lemma ContentOne(f: Frame)
    ensures Content([f]) == if IsReply(f) then [] else [f]
  {
    assert [f][1..] == [];
  }

  lemma {:induction false} ContentMembers(fs: seq<Frame>)
    ensures forall f :: f in Content(fs) <==> f in fs && !IsReply(f)
  {
    if fs != [] {
      ContentMembers(fs[1..]);
    }
  }

  lemma {:induction false} KeptContent(q: seq<Item>, id: string)
    ensures |Content(Named(FramesOf(Kept(q, id)), id))| + (|q| - |Kept(q, id)|) == |Content(Named(FramesOf(q), id))|
  {
    if q != [] {
      KeptContent(q[1..], id);
      var i, rest, kept := q[0], q[1..], Kept(q[1..], id);
      NamedHead(i, rest, id);
      NamedHead(i, kept, id);
      assert q == [i] + rest && [] + kept == kept;
      assert Kept(q, id) == if Evicts(i, id) then kept else [i] + kept;
      var one := if i.frame.exec == id then [i.frame] else [];
      ContentConcat(one, Named(FramesOf(rest), id));
      ContentConcat(one, Named(FramesOf(kept), id));
      ContentOne(i.frame);
      hide Content, Named, FramesOf, Kept;
    }
  }

  lemma PipeKeptContent(b: Outbox, id: string)
    ensures |Content(Named(Pipe(Discard(b, id).0), id))| + (|b.queue| - |Kept(b.queue, id)|) == |Content(Named(Pipe(b), id))|
  {
    GoneAndQueue(b, id);
    GoneAndQueue(Discard(b, id).0, id);
    KeptContent(b.queue, id);
    ContentConcat(Named(Gone(b), id), Named(FramesOf(b.queue), id));
    ContentConcat(Named(Gone(b), id), Named(FramesOf(Kept(b.queue, id)), id));
    hide Content, Named, Pipe, FramesOf, Kept, Sum, AddBuffered;
  }

  /** Nothing shown is more than what was accepted, less what was evicted; and unmarked exits are shown as they
      were accepted. */
  ghost predicate Spared(events: seq<Event>, id: string) {
    var b, shown, accepted := After(events), Named(Pipe(After(events)), id), Accepts(events, id);
    && |Content(shown)| + Lost(events, id) <= |Content(accepted)|
    && forall f <- shown :: Plain(f) ==> f in accepted
  }

  lemma ContentMore(fs: seq<Frame>, f: Frame)
    ensures Content(fs + [f]) == Content(fs) + if IsReply(f) then [] else [f]
  {
    ContentConcat(fs, [f]);
    ContentOne(f);
  }

  lemma ContentPrefix(a: seq<Frame>, b: seq<Frame>)
    requires a <= b
    ensures |Content(a)| <= |Content(b)|
  {
    assert b == a + b[|a|..];
    ContentConcat(a, b[|a|..]);
  }

  lemma CostlySpares(b: Outbox, f: Frame, id: string, accepted: seq<Frame>, lost: nat)
    requires f.exec == id && Evicting(b, f)
    requires |Content(Named(Pipe(b), id))| + lost <= |Content(accepted)|
    requires forall g <- Named(Pipe(b), id) :: Plain(g) ==> g in accepted
    ensures var (b', r) := Enqueue(b, f);
      var shown, after := Named(Pipe(b'), id), accepted + if r == Accepted then [f] else [];
      && |Content(shown)| + lost + Evicted(b, Send(f), id) <= |Content(after)|
      && (forall g <- shown :: Plain(g) ==> g in after)
  {
    PipeKeptContent(b, id);
    PipeDiscardOwn(b, id);
    CostlyPipe(b, f, id);
    hide Content, Enqueue, Pipe, Named, Evicting, Discard, HasOutput, Kept;
    var kept := Named(Pipe(Discard(b, id).0), id);
    ContentMore(accepted, f);
    forall g: Frame ensures Content(kept + [g]) == Content(kept) + if IsReply(g) then [] else [g] { ContentMore(kept, g); }
    assert accepted + [] == accepted;
  }

  lemma SpareStep(before: seq<Event>, e: Event, id: string)
    requires Spared(before, id)
    ensures Spared(before + [e], id)
  {
    var b, accepted := After(before), Accepts(before, id);
    RunMore(EmptyOutbox, before, e);
    AcceptsMore(before, e, id);
    LostMore(before, e, id);
    EvictedMeans(b, e, id);
    hide Content, Pipe, Named, Enqueue, Accepts, Lost, Evicted, Evicting, Run;
    assert accepted + [] == accepted && Named(Pipe(b), id) + [] == Named(Pipe(b), id);
    if !e.Send? {
      OtherTurn(b, e, id);
      ContentPrefix(Named(Pipe(Step(b, e)), id), Named(Pipe(b), id));
    } else if e.frame.exec != id {
      OtherSend(b, e.frame, id);
    } else if Evicting(b, e.frame) {
      CostlySpares(b, e.frame, id, accepted, Lost(before, id));
    } else {
      CheapSend(b, e.frame, id);
      ContentMore(accepted, e.frame);
      ContentMore(Named(Pipe(b), id), e.frame);
    }
  }

  lemma {:induction false} AlwaysSpared(events: seq<Event>, id: string)
    ensures Spared(events, id)
  {
    hide Step, Enqueue;
    if events == [] {
      assert Pipe(EmptyOutbox) == [];
    } else {
      var before, e := events[..|events| - 1], events[|events| - 1];
      assert before + [e] == events;
      hide Spared;
      AlwaysSpared(before, id);
      SpareStep(before, e, id);
    }
  }

  /** Where one exit ends what was accepted under an exec ID, apart from error replies, the exit written for it has
      everything before it if and only if no send met the guard. The writer may have stopped. */
  lemma ExitIsCompleteExactly(events: seq<Event>, e: nat, id: string, front: seq<Frame>, x: Frame)
    requires var written := After(events).written; e < |written| && written[e].exec == id && Plain(written[e])
    requires Content(Accepts(events, id)) == front + [x] && forall f <- front :: IsOutput(f)
    ensures Content(Named(After(events).written[..e], id)) == front <==> NeverEvicting(events, id)
  {
    var w, accepted := After(events).written[e], Accepts(events, id);
    var earlier := Named(After(events).written[..e], id);
    ContentMore(earlier, w);
    if NeverEvicting(events, id) {
      NoLossExactly(events, id);
      WrittenVouchesExactly(events, e, id);
      var rest := accepted[|earlier| + 1..];
      assert accepted == earlier + [w] + rest;
      ContentConcat(earlier + [w], rest);
      hide Content, Named, Accepts, Run, NeverEvicting, FirstLoss;
      ExitPlace(Content(earlier), w, Content(rest), front, x);
    } else {
      AlwaysSpared(events, id);
      LostNothing(events, id);
      AroundWritten(After(events), e, id);
      hide Content, Named, Pipe, Accepts, Run, NeverEvicting, Lost;
      ContentPrefix(earlier + [w], Named(Pipe(After(events)), id));
    }
  }

  /** An exit is no output, so the last place of the content is its place. */
  lemma ExitPlace(earlier: seq<Frame>, w: Frame, rest: seq<Frame>, front: seq<Frame>, x: Frame)
    requires earlier + [w] + rest == front + [x] && !IsOutput(w) && forall f <- front :: IsOutput(f)
    ensures earlier == front
  {
    var all := front + [x];
    assert forall i | 0 <= i < |front| :: all[i] in front;
    assert all[|earlier|] == w;
    assert earlier == all[..|earlier|] && front == all[..|front|];
  }

  // ----- Two histories ---------------------------------------------------------------------------------

  const ID := "x"
  const DATA := Frame(Stdout, ID, "", "", "", false, 0)
  const LAST := Frame(Exit, ID, "", "", "", false, 0)
  const DUPLICATE := Nack(ID, "agent_error")
  const LATE := Err(ID, "unknown_exec")
  const OTHER := Nack("y", "agent_error")

  function ItemOf(f: Frame): Item {
    Item(f, RetainedBytes(f))
  }

  function Sends(f: Frame, n: nat): seq<Event> {
    if n == 0 then [] else Sends(f, n - 1) + [Send(f)]
  }

  function Queued(f: Frame, n: nat): seq<Item> {
    if n == 0 then [] else Queued(f, n - 1) + [ItemOf(f)]
  }

  /** Enough turns of the writer for `n` queued frames. */
  function Writes(n: nat): seq<Event> {
    if n == 0 then [] else [Turn(true), Turn(true)] + Writes(n - 1)
  }

  /** An open outbox that holds `q` and has room for anything small. */
  predicate Light(b: Outbox, q: seq<Item>, spent: nat) {
    && b.queue == q && b.writing.None? && !b.closing && !b.cancelled && !b.stopped && b.written == []
    && b.bytes <= spent && Buffered(b, ID) <= spent
  }

  lemma Push(b: Outbox, q: seq<Item>, spent: nat, f: Frame)
    requires Light(b, q, spent) && RetainedBytes(f) <= 600 && |q| < 256 && spent <= 300_000
    requires IsOutput(f) ==> f.exec == ID && |q| < 224
    ensures Enqueue(b, f).1 == Accepted && Light(Enqueue(b, f).0, q + [ItemOf(f)], spent + 600)
  {
    hide RetainedBytes, Discard;
  }

  lemma {:induction false} PushMany(b: Outbox, q: seq<Item>, spent: nat, f: Frame, n: nat)
    requires Light(b, q, spent) && RetainedBytes(f) <= 600 && |q| + n <= 256 && spent + 600 * n <= 300_000
    requires IsOutput(f) ==> f.exec == ID && |q| + n <= 224
    ensures Light(Run(b, Sends(f, n)), q + Queued(f, n), spent + 600 * n)
    ensures forall i | 0 <= i < n :: Enqueue(Run(b, Sends(f, i)), f).1 == Accepted
    decreases n
  {
    hide Light, Enqueue, RetainedBytes;
    if n == 0 {
      assert q + [] == q;
    } else {
      PushMany(b, q, spent, f, n - 1);
      QueuedCount(f, n - 1);
      var c := Run(b, Sends(f, n - 1));
      RunMore(b, Sends(f, n - 1), Send(f));
      Push(c, q + Queued(f, n - 1), spent + 600 * (n - 1), f);
      assert q + Queued(f, n - 1) + [ItemOf(f)] == q + Queued(f, n);
    }
  }

  lemma {:induction false} KeptQueued(f: Frame, n: nat, id: string)
    ensures Kept(Queued(f, n), id) == if Evicts(ItemOf(f), id) then [] else Queued(f, n)
  {
    if n > 0 {
      KeptQueued(f, n - 1, id);
      KeptConcat(Queued(f, n - 1), [ItemOf(f)], id);
      assert [ItemOf(f)][1..] == [];
    }
  }

  lemma {:induction false} RunConcat(b: Outbox, before: seq<Event>, after: seq<Event>)
    ensures Run(b, before + after) == Run(Run(b, before), after)
    decreases |before|
  {
    hide Step;
    if before == [] {
      assert before + after == after;
    } else {
      assert (before + after)[1..] == before[1..] + after;
      RunConcat(Step(b, before[0]), before[1..], after);
    }
  }

  /** An idle writer writes the whole queue in order. */
  lemma {:induction false} WritesAll(b: Outbox, n: nat)
    requires |b.queue| == n && b.writing.None? && !b.cancelled && !b.stopped
    ensures Run(b, Writes(n)).written == b.written + FramesOf(b.queue)
    decreases n
  {
    if n > 0 {
      var b1 := Drain(b, true);
      var b2 := Drain(b1, true);
      assert b2.queue == b.queue[1..] && b2.written == b.written + [b.queue[0].frame];
      hide Drain;
      TwoTurns(b, Writes(n - 1));
      WritesAll(b2, n - 1);
      assert b.written + [b.queue[0].frame] + FramesOf(b.queue[1..]) == b.written + FramesOf(b.queue);
    }
  }

  lemma TwoTurns(b: Outbox, rest: seq<Event>)
    ensures Run(b, [Turn(true), Turn(true)] + rest) == Run(Drain(Drain(b, true), true), rest)
  {
    var events := [Turn(true), Turn(true)] + rest;
    assert events[1..] == [Turn(true)] + rest && ([Turn(true)] + rest)[1..] == rest;
    hide Drain;
  }

  /** A terminal that is no exit, at a full queue, costs its exec all queued output, without a mark. */
  lemma Costs(b: Outbox, q: seq<Item>, spent: nat, f: Frame)
    requires Light(b, q, spent) && |q| == 256 && spent <= 300_000 && RetainedBytes(f) <= 600
    requires f.exec == ID && IsTerminal(f) && f.kind != Exit && |Kept(q, ID)| < 256
    ensures Enqueue(b, f).1 == Accepted && Light(Enqueue(b, f).0, Kept(q, ID) + [ItemOf(f)], spent + 600)
  {
    hide RetainedBytes, Kept, Sum;
  }

  const FLOOD := 224
  const RESERVE := 32

  /** The history of a duplicate invoke: 224 frames of output and 32 other replies fill the queue, the
      duplicate is refused, the device's exit follows, and the network takes everything. */
  const AFTER_DUPLICATE: seq<Event> :=
    Sends(DATA, FLOOD) + Sends(OTHER, RESERVE) + [Send(DUPLICATE)] + [Send(LAST)] + Writes(RESERVE + 2)

  lemma Sizes()
    ensures RetainedBytes(DATA) <= 600 && RetainedBytes(LAST) <= 600 && RetainedBytes(DUPLICATE) <= 600
    ensures RetainedBytes(LATE) <= 600 && RetainedBytes(OTHER) <= 600
  {
  }

  /** The queue after `n` frames of output, perhaps one terminal of the exec, and the other replies. */
  lemma Filled(n: nat, last: seq<Frame>)
    requires n + |last| == FLOOD && (last == [] || last == [LAST])
    ensures Light(After(Sends(DATA, n) + SendsOf(last) + Sends(OTHER, RESERVE)), Crowd(n, last), 600 * 256)
    ensures forall i | 0 <= i < n :: Enqueue(After(Sends(DATA, i)), DATA).1 == Accepted
  {
    EmptyIsLight();
    hide Light, Enqueue, Sends, Queued, RetainedBytes, Run;
    Sizes();
    PushMany(EmptyOutbox, [], 0, DATA, n);
    var q, sent := Queued(DATA, n), Sends(DATA, n);
    assert [] + q == q;
    QueuedCount(DATA, n);
    PushLast(sent, q, 600 * n, last);
    PushMany(After(sent + SendsOf(last)), q + ItemsOf(last), 600 * FLOOD, OTHER, RESERVE);
    RunConcat(EmptyOutbox, sent + SendsOf(last), Sends(OTHER, RESERVE));
  }

  lemma EmptyIsLight()
    ensures Light(EmptyOutbox, [], 0)
  {
  }

  lemma PushLast(sent: seq<Event>, q: seq<Item>, spent: nat, last: seq<Frame>)
    requires Light(After(sent), q, spent) && |q| < 256 && spent <= 300_000 && (last == [] || last == [LAST])
    ensures Light(After(sent + SendsOf(last)), q + ItemsOf(last), spent + 600 * |last|)
  {
    Sizes();
    hide Light, Enqueue, RetainedBytes, Run;
    if last == [LAST] {
      Push(After(sent), q, spent, LAST);
      RunMore(EmptyOutbox, sent, Send(LAST));
    } else {
      assert q + [] == q && sent + [] == sent;
    }
  }

  function SendsOf(last: seq<Frame>): seq<Event> {
    if last == [] then [] else [Send(last[0])]
  }

  function ItemsOf(last: seq<Frame>): seq<Item> {
    if last == [] then [] else [ItemOf(last[0])]
  }

  function Crowd(n: nat, last: seq<Frame>): seq<Item> {
    Queued(DATA, n) + ItemsOf(last) + Queued(OTHER, RESERVE)
  }

  /** What an eviction leaves of it. */
  lemma CrowdKept(n: nat, last: seq<Frame>)
    requires n + |last| == FLOOD && (last == [] || last == [LAST])
    ensures |Crowd(n, last)| == 256 && |Queued(OTHER, RESERVE)| == 32
    ensures Kept(Crowd(n, last), ID) == ItemsOf(last) + Queued(OTHER, RESERVE)
  {
    assert Kept(ItemsOf(last), ID) == ItemsOf(last) by {
      assert last != [] ==> [ItemOf(LAST)][1..] == [];
    }
    QueuedCount(DATA, n);
    QueuedCount(OTHER, RESERVE);
    KeptQueued(DATA, n, ID);
    KeptQueued(OTHER, RESERVE, ID);
    hide Kept, Queued, RetainedBytes;
    KeptConcat(Queued(DATA, n), ItemsOf(last), ID);
    KeptConcat(Queued(DATA, n) + ItemsOf(last), Queued(OTHER, RESERVE), ID);
    assert [] + ItemsOf(last) == ItemsOf(last);
  }

  lemma {:induction false} QueuedCount(f: Frame, n: nat)
    ensures |Queued(f, n)| == n
  {
    if n > 0 {
      QueuedCount(f, n - 1);
    }
  }

  /** Two more sends and the writer's turns. */
  lemma TwoMore(before: seq<Event>, f: Frame, g: Frame, n: nat)
    ensures After(before + [Send(f)] + [Send(g)] + Writes(n))
         == Run(Enqueue(Enqueue(After(before), f).0, g).0, Writes(n))
  {
    hide Enqueue, Writes, Run;
    RunMore(EmptyOutbox, before, Send(f));
    RunMore(EmptyOutbox, before + [Send(f)], Send(g));
    RunConcat(EmptyOutbox, before + [Send(f)] + [Send(g)], Writes(n));
  }

  lemma {:induction false} ControlOnly(f: Frame, n: nat)
    requires !IsOutput(f)
    ensures forall g <- FramesOf(Queued(f, n)) :: !IsOutput(g)
  {
    if n > 0 {
      ControlOnly(f, n - 1);
      FramesConcat(Queued(f, n - 1), [ItemOf(f)]);
      OneFrame(f, "");
    }
  }

  /** All output was accepted, an unmarked exit was written, and no output was. */
  lemma DuplicateInvokeLosesOutput()
    ensures forall i | 0 <= i < FLOOD :: Enqueue(After(Sends(DATA, i)), DATA).1 == Accepted
    ensures var written := After(AFTER_DUPLICATE).written;
      && |written| > 0 && written[|written| - 1] == LAST && !LAST.truncated
      && forall f <- written :: !IsOutput(f)
  {
    hide Light, Enqueue, Kept, Sends, Queued, RetainedBytes, Run, Writes, FramesOf;
    Sizes();
    Filled(FLOOD, []);
    CrowdKept(FLOOD, []);
    var before := Sends(DATA, FLOOD) + Sends(OTHER, RESERVE);
    assert Sends(DATA, FLOOD) + [] == Sends(DATA, FLOOD);
    var b := After(before);
    var q := Crowd(FLOOD, []);
    var rest := Queued(OTHER, RESERVE);
    assert [] + rest == rest;
    Costs(b, q, 600 * 256, DUPLICATE);
    var b1 := Enqueue(b, DUPLICATE).0;
    Push(b1, rest + [ItemOf(DUPLICATE)], 600 * 257, LAST);
    var b2 := Enqueue(b1, LAST).0;
    TwoMore(before, DUPLICATE, LAST, RESERVE + 2);
    LightMeans(b2, rest + [ItemOf(DUPLICATE)] + [ItemOf(LAST)], 600 * 258);
    WritesAll(b2, RESERVE + 2);
    FramesOfThree(rest, DUPLICATE, LAST);
    ControlOnly(OTHER, RESERVE);
    assert [] + FramesOf(b2.queue) == FramesOf(b2.queue);
  }

  lemma LightMeans(b: Outbox, q: seq<Item>, spent: nat)
    requires Light(b, q, spent)
    ensures b.queue == q && b.writing.None? && !b.cancelled && !b.stopped && b.written == []
  {
  }

  lemma FramesOfThree(q: seq<Item>, f: Frame, g: Frame)
    ensures FramesOf(q + [ItemOf(f)] + [ItemOf(g)]) == FramesOf(q) + [f] + [g]
  {
    FramesConcat(q, [ItemOf(f)]);
    FramesConcat(q + [ItemOf(f)], [ItemOf(g)]);
    OneFrame(f, "");
    OneFrame(g, "");
  }

  const EARLY := 223

  /** The history of a cancellation that comes after the exit: 223 frames of output, the exit and 32 other
      replies fill the queue, and the reply to the cancellation finds it full. */
  const AFTER_LATE_CANCEL: seq<Event> :=
    Sends(DATA, EARLY) + [Send(LAST)] + Sends(OTHER, RESERVE) + [Send(LATE)] + Writes(RESERVE + 2)

  lemma OneMore(before: seq<Event>, f: Frame, n: nat)
    ensures After(before + [Send(f)] + Writes(n)) == Run(Enqueue(After(before), f).0, Writes(n))
  {
    hide Enqueue, Writes, Run;
    RunMore(EmptyOutbox, before, Send(f));
    RunConcat(EmptyOutbox, before + [Send(f)], Writes(n));
  }

  /** All output was accepted before the exit, the unmarked exit was written, and no output was. */
  lemma LateCancelLosesOutput()
    ensures forall i | 0 <= i < EARLY :: Enqueue(After(Sends(DATA, i)), DATA).1 == Accepted
    ensures var written := After(AFTER_LATE_CANCEL).written;
      && |written| > 0 && written[0] == LAST && !LAST.truncated
      && forall f <- written :: !IsOutput(f)
  {
    hide Light, Enqueue, Kept, Sends, Queued, RetainedBytes, Run, Writes, FramesOf;
    Sizes();
    Filled(EARLY, [LAST]);
    CrowdKept(EARLY, [LAST]);
    var before := Sends(DATA, EARLY) + [Send(LAST)] + Sends(OTHER, RESERVE);
    var rest := Queued(OTHER, RESERVE);
    var b := After(before);
    Costs(b, Crowd(EARLY, [LAST]), 600 * 256, LATE);
    var b1 := Enqueue(b, LATE).0;
    var q := [ItemOf(LAST)] + rest + [ItemOf(LATE)];
    LightMeans(b1, q, 600 * 257);
    OneMore(before, LATE, RESERVE + 2);
    WritesAll(b1, RESERVE + 2);
    FramesAround(rest);
    ControlOnly(OTHER, RESERVE);
    assert [] + FramesOf(b1.queue) == FramesOf(b1.queue);
  }

  lemma FramesAround(rest: seq<Item>)
    ensures FramesOf([ItemOf(LAST)] + rest + [ItemOf(LATE)]) == [LAST] + FramesOf(rest) + [LATE]
  {
    FramesConcat([ItemOf(LAST)], rest);
    FramesConcat([ItemOf(LAST)] + rest, [ItemOf(LATE)]);
    OneFrame(LAST, "");
    OneFrame(LATE, "");
  }
}
