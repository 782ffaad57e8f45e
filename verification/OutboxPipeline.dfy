/** What a connection's peer sees of one exec: an exit that is not marked truncated vouches for every
    frame that was accepted before it. */
module OutboxPipeline {
  import opened Prelude
  import opened Frames
  import opened OutboxModel

  function FramesOf(items: seq<Item>): seq<Frame> {
    if items == [] then [] else [items[0].frame] + FramesOf(items[1..])
  }

  /** What has been written, is being written and is queued, in this order. */
  function Pipe(b: Outbox): seq<Frame> {
    b.written + FramesOf(Held(b))
  }

  function Named(fs: seq<Frame>, id: string): seq<Frame> {
    if fs == [] then [] else (if fs[0].exec == id then [fs[0]] else []) + Named(fs[1..], id)
  }

  lemma {:induction false} FramesConcat(a: seq<Item>, b: seq<Item>)
    ensures FramesOf(a + b) == FramesOf(a) + FramesOf(b)
  {
    if a == [] {
      assert a + b == b;
    } else {
      assert (a + b)[1..] == a[1..] + b;
      FramesConcat(a[1..], b);
    }
  }

  lemma NamedFirst(fs: seq<Frame>, id: string)
    requires fs != []
    ensures Named(fs, id) == (if fs[0].exec == id then [fs[0]] else []) + Named(fs[1..], id)
  {
  }

  lemma {:induction false} NamedConcat(a: seq<Frame>, b: seq<Frame>, id: string)
    ensures Named(a + b, id) == Named(a, id) + Named(b, id)
  {
    var all := a + b;
    if a == [] {
      assert all == b;
    } else {
      assert all[0] == a[0] && all[1..] == a[1..] + b;
      NamedConcat(a[1..], b, id);
      NamedFirst(all, id);
      NamedFirst(a, id);
      hide Named;
    }
  }

  lemma OneFrame(f: Frame, id: string)
    ensures Named([f], id) == if f.exec == id then [f] else []
    ensures forall i: Item :: i.frame == f ==> FramesOf([i]) == [f]
  {
    assert [f][1..] == [];
    forall i: Item | i.frame == f ensures FramesOf([i]) == [f] {
      assert [i][1..] == [];
    }
  }

  /** Evicting one exec's output leaves the frames of every other exec as they were. */
  lemma {:induction false} KeptNamed(q: seq<Item>, id: string, other: string)
    requires id != other
    ensures Named(FramesOf(Kept(q, id)), other) == Named(FramesOf(q), other)
  {
    if q != [] {
      KeptNamed(q[1..], id, other);
      var head := if Evicts(q[0], id) then [] else [q[0]];
      FramesConcat(head, Kept(q[1..], id));
      OneFrame(q[0].frame, other);
      NamedConcat(FramesOf(head), FramesOf(Kept(q[1..], id)), other);
      NamedConcat([q[0].frame], FramesOf(q[1..]), other);
    }
  }

  lemma {:induction false} KeptMembersNamed(q: seq<Item>, id: string)
    ensures forall f <- FramesOf(Kept(q, id)) :: f in FramesOf(q)
    ensures |Kept(q, id)| <= |q| && (|Kept(q, id)| == |q| ==> Kept(q, id) == q)
  {
    if q != [] {
      KeptMembersNamed(q[1..], id);
      var head := if Evicts(q[0], id) then [] else [q[0]];
      FramesConcat(head, Kept(q[1..], id));
      OneFrame(q[0].frame, id);
    }
  }

  lemma {:induction false} NamedMembers(fs: seq<Frame>, id: string)
    ensures forall f <- Named(fs, id) :: f in fs && f.exec == id
    ensures forall f <- fs :: f.exec == id ==> f in Named(fs, id)
  {
    if fs != [] {
      NamedMembers(fs[1..], id);
    }
  }

  /** The frames of one exec around position `e` of what was written. */
  lemma AroundWritten(b: Outbox, e: nat, id: string)
    requires e < |b.written| && b.written[e].exec == id
    ensures var earlier := Named(b.written[..e], id);
      |earlier| < |Named(Pipe(b), id)| && earlier + [b.written[e]] <= Named(Pipe(b), id)
  {
    var rest := b.written[e + 1..] + FramesOf(Held(b));
    assert Pipe(b) == b.written[..e] + ([b.written[e]] + rest);
    NamedConcat(b.written[..e], [b.written[e]] + rest, id);
    NamedConcat([b.written[e]], rest, id);
    OneFrame(b.written[e], id);
  }

  // ----- What was accepted -----------------------------------------------------------------------------

  function After(events: seq<Event>): Outbox {
    Run(EmptyOutbox, events)
  }

  predicate SendsTo(e: Event, id: string) {
    e.Send? && e.frame.exec == id
  }

  predicate EndsIt(e: Event, id: string) {
    SendsTo(e, id) && IsTerminal(e.frame)
  }

  /** The frames of one exec that were accepted, as they were sent. */
  function Accepts(events: seq<Event>, id: string): seq<Frame> {
    if events == [] then []
    else
      var before, e := events[..|events| - 1], events[|events| - 1];
      Accepts(before, id) + if SendsTo(e, id) && Enqueue(After(before), e.frame).1 == Accepted then [e.frame] else []
  }

  /** A terminal of the exec was accepted. */
  predicate Finished(events: seq<Event>, id: string) {
    exists i | 0 <= i < |events| :: EndsIt(events[i], id) && Enqueue(After(events[..i]), events[i].frame).1 == Accepted
  }

  predicate Ended(events: seq<Event>, id: string) {
    exists e <- events :: EndsIt(e, id)
  }

  /** Nothing of the exec is sent after an accepted terminal. */
  predicate LastWord(events: seq<Event>, id: string) {
    forall i | 0 <= i < |events| :: Finished(events[..i], id) ==> !SendsTo(events[i], id)
  }

  predicate NoExit(fs: seq<Frame>) {
    forall f <- fs :: f.kind != Exit
  }

  predicate NoPlainExit(fs: seq<Frame>) {
    forall f <- fs :: f.kind == Exit ==> f.truncated
  }

  lemma {:induction false} RunMore(b: Outbox, events: seq<Event>, e: Event)
    ensures Run(b, events + [e]) == Step(Run(b, events), e)
    decreases |events|
  {
    if events == [] {
      assert Run(Step(b, e), []) == Step(b, e);
    } else {
      assert (events + [e])[1..] == events[1..] + [e];
      RunMore(Step(b, events[0]), events[1..], e);
    }
  }

  // ----- One step of the pipeline ----------------------------------------------------------------------

  lemma PipeAppend(b: Outbox, f: Frame, id: string)
    ensures Named(Pipe(Append(b, f)), id) == Named(Pipe(b), id) + if f.exec == id then [f] else []
  {
    var item := Item(f, RetainedBytes(f));
    assert Held(Append(b, f)) == Held(b) + [item];
    FramesConcat(Held(b), [item]);
    OneFrame(f, id);
    assert Pipe(Append(b, f)) == Pipe(b) + [f];
    NamedConcat(Pipe(b), [f], id);
  }

  lemma PipeDiscard(b: Outbox, id: string, other: string)
    requires id != other
    ensures Named(Pipe(Discard(b, id).0), other) == Named(Pipe(b), other)
  {
    var front := if b.writing.Some? then [b.writing.value] else [];
    PipeParts(b, front, b.queue, other);
    PipeParts(Discard(b, id).0, front, Kept(b.queue, id), other);
    KeptNamed(b.queue, id, other);
  }

  lemma PipeParts(b: Outbox, front: seq<Item>, queue: seq<Item>, id: string)
    requires Held(b) == front + queue
    ensures Named(Pipe(b), id) == Named(b.written, id) + Named(FramesOf(front), id) + Named(FramesOf(queue), id)
  {
    FramesConcat(front, queue);
    NamedConcat(FramesOf(front), FramesOf(queue), id);
    NamedConcat(b.written, FramesOf(Held(b)), id);
  }

  /** Evicting an exec's own output leaves some of its frames. */
  lemma PipeDiscardOwn(b: Outbox, id: string)
    ensures forall f <- Named(Pipe(Discard(b, id).0), id) :: f in Named(Pipe(b), id)
    ensures !Discard(b, id).1 ==> Pipe(Discard(b, id).0) == Pipe(b)
  {
    var b' := Discard(b, id).0;
    var front := if b.writing.Some? then [b.writing.value] else [];
    KeptMembersNamed(b.queue, id);
    FramesConcat(front, b.queue);
    FramesConcat(front, b'.queue);
    NamedMembers(Pipe(b), id);
    NamedMembers(Pipe(b'), id);
    forall f <- Named(Pipe(b'), id) ensures f in Named(Pipe(b), id) {
      assert f in Pipe(b);
    }
  }

  lemma PipeFlags(b: Outbox, b': Outbox)
    requires b' == b.(closing := b'.closing, cancelled := b'.cancelled, bytes := b'.bytes, buffered := b'.buffered)
    ensures Pipe(b') == Pipe(b)
  {
  }

  /** Sending another exec's frame. */
  lemma OtherSend(b: Outbox, f: Frame, id: string)
    requires f.exec != id
    ensures Named(Pipe(Enqueue(b, f).0), id) == Named(Pipe(b), id)
  {
    hide Pipe, Named, Append, Discard, Full;
    var d := Discard(b, f.exec).0;
    PipeDiscard(b, f.exec, id);
    PipeAppend(b, f, id);
    PipeAppend(d, f, id);
    PipeAppend(d, f.(truncated := true), id);
    PipeFlags(b, b.(closing := true, cancelled := true));
    PipeFlags(d, d.(closing := true, cancelled := true));
  }

  /** A network turn or a closing keeps the pipeline, or cuts it after what was written. */
  lemma OtherTurn(b: Outbox, e: Event, id: string)
    requires !e.Send?
    ensures var b' := Step(b, e);
      && (!b'.stopped ==> Pipe(b') == Pipe(b) && !b.stopped)
      && Named(Pipe(b'), id) <= Named(Pipe(b), id)
      && (b.closing ==> b'.closing) && (b.cancelled ==> b'.cancelled) && (b.stopped ==> b'.stopped)
      && (b'.stopped && !b.stopped ==> b'.closing)
  {
    match e
    case Turn(ok) =>
      if !b.stopped {
        StopCuts(b, id);
        if b.writing.Some? {
          WritingMoves(b, id);
        } else if b.queue != [] {
          assert Held(b) == b.queue;
          var b' := b.(writing := Some(b.queue[0]), queue := b.queue[1..]);
          assert Held(b') == b.queue;
        }
      }
    case CloseIt => PipeFlags(b, Close(b));
    case CancelIt => PipeFlags(b, Cancel(b));
  }

  lemma StopCuts(b: Outbox, id: string)
    ensures Named(Pipe(Stop(b)), id) <= Named(Pipe(b), id)
  {
    assert Pipe(Stop(b)) == b.written + [];
    assert Pipe(Stop(b)) == b.written;
    NamedConcat(b.written, FramesOf(Held(b)), id);
  }

  lemma WritingMoves(b: Outbox, id: string)
    requires b.writing.Some? && !b.stopped
    ensures Pipe(Drain(b, true)) == Pipe(b) && !Drain(b, true).stopped
    ensures Named(Pipe(Drain(b, false)), id) <= Named(Pipe(b), id)
  {
    var f := b.writing.value.frame;
    assert Held(b) == [b.writing.value] + b.queue;
    assert Held(b)[1..] == b.queue;
    assert Held(Drain(b, true)) == b.queue;
    assert Drain(b, true).written == b.written + [f];
    assert b.written + [f] + FramesOf(b.queue) == b.written + ([f] + FramesOf(b.queue));
    StopCuts(b, id);
    assert Pipe(Drain(b, false)) == b.written == Pipe(Stop(b)) by {
      assert Held(Drain(b, false)) == [] && Held(Stop(b)) == [];
    }
  }

  lemma ClosedStays(b: Outbox, f: Frame)
    ensures b.closing || b.cancelled ==> Enqueue(b, f) == (b, Closed)
    ensures Enqueue(b, f).0.stopped == b.stopped && (b.closing ==> Enqueue(b, f).0.closing)
    ensures b.cancelled ==> Enqueue(b, f).0.cancelled
    ensures !IsOutput(f) ==> Enqueue(b, f).1 != Dropped
    ensures Enqueue(b, f).1 == Closed ==> Enqueue(b, f).0.closing || Enqueue(b, f).0.cancelled
  {
  }

  /** Output of the exec itself. */
  lemma OwnOutput(b: Outbox, f: Frame, id: string)
    requires f.exec == id && !IsTerminal(f)
    ensures var (b', r) := Enqueue(b, f);
      Named(Pipe(b'), id) == Named(Pipe(b), id) + if r == Accepted then [f] else []
  {
    hide Pipe, Named, Append, Discard, Full;
    PipeAppend(b, f, id);
    PipeFlags(b, b.(closing := true, cancelled := true));
  }

  /** A terminal of the exec itself: it follows everything, or some output was evicted and an exit says so. */
  lemma OwnEnd(b: Outbox, f: Frame, id: string)
    requires f.exec == id && IsTerminal(f) && NoExit(Named(Pipe(b), id))
    ensures var (b', r) := Enqueue(b, f);
      || NoPlainExit(Named(Pipe(b'), id))
      || (r == Accepted && Named(Pipe(b'), id) == Named(Pipe(b), id) + [f])
  {
    hide Pipe, Named, Append, Discard, Full;
    var (d, dropped) := Discard(b, id);
    PipeDiscardOwn(b, id);
    PipeAppend(b, f, id);
    PipeAppend(d, f, id);
    PipeAppend(d, f.(truncated := true), id);
    PipeFlags(b, b.(closing := true, cancelled := true));
    PipeFlags(d, d.(closing := true, cancelled := true));
  }

  // ----- The whole history -----------------------------------------------------------------------------

  /** Until a terminal is sent the pipeline holds exactly what was accepted, unless the writer stopped;
      afterwards it holds a first part of it, or has no exit that vouches for it. */
  ghost predicate Vouched(events: seq<Event>, id: string) {
    var b, shown, accepted := After(events), Named(Pipe(After(events)), id), Accepts(events, id);
    && (b.stopped ==> b.closing)
    && if !Ended(events, id) then
      NoExit(accepted) && shown <= accepted && (!b.stopped ==> shown == accepted)
    else
      (shown <= accepted || NoPlainExit(shown)) && (Finished(events, id) || b.closing || b.cancelled)
  }

  lemma AcceptsMore(before: seq<Event>, e: Event, id: string)
    ensures Accepts(before + [e], id)
      == Accepts(before, id) + if SendsTo(e, id) && Enqueue(After(before), e.frame).1 == Accepted then [e.frame] else []
  {
    assert (before + [e])[..|before|] == before;
  }

  lemma LastEvent(before: seq<Event>, e: Event, id: string)
    ensures var events := before + [e];
      && After(events) == Step(After(before), e)
      && Accepts(events, id)
         == Accepts(before, id) + (if SendsTo(e, id) && Enqueue(After(before), e.frame).1 == Accepted then [e.frame] else [])
      && Ended(events, id) == (Ended(before, id) || EndsIt(e, id))
      && (Finished(before, id) ==> Finished(events, id))
      && (EndsIt(e, id) && Enqueue(After(before), e.frame).1 == Accepted ==> Finished(events, id))
      && (LastWord(events, id) ==> LastWord(before, id) && (Finished(before, id) ==> !SendsTo(e, id)))
  {
    var events := before + [e];
    RunMore(EmptyOutbox, before, e);
    assert events[..|before|] == before;
    hide Enqueue, Run, Step;
    forall i | 0 <= i < |before| ensures events[i] == before[i] && events[..i] == before[..i] {
    }
    assert events[|before|] == e;
    EndedMore(before, e, id);
  }

  lemma EndedMore(before: seq<Event>, e: Event, id: string)
    ensures Ended(before + [e], id) == (Ended(before, id) || EndsIt(e, id))
  {
    assert e in before + [e];
    assert forall x <- before :: x in before + [e];
  }

  lemma TurnVouches(before: seq<Event>, e: Event, id: string)
    requires Vouched(before, id) && LastWord(before + [e], id) && !e.Send?
    ensures Vouched(before + [e], id)
  {
    hide Step, Pipe, Named, Enqueue, Finished, Ended, Accepts, LastWord, After;
    LastEvent(before, e, id);
    OtherTurn(After(before), e, id);
  }

  lemma OtherVouches(before: seq<Event>, e: Event, id: string)
    requires Vouched(before, id) && LastWord(before + [e], id) && e.Send? && e.frame.exec != id
    ensures Vouched(before + [e], id)
  {
    hide Pipe, Named, Enqueue, Finished, Ended, Accepts, LastWord, After;
    LastEvent(before, e, id);
    ClosedStays(After(before), e.frame);
    OtherSend(After(before), e.frame, id);
  }

  lemma OwnVouches(before: seq<Event>, e: Event, id: string)
    requires Vouched(before, id) && LastWord(before + [e], id) && SendsTo(e, id)
    ensures Vouched(before + [e], id)
  {
    hide Pipe, Named, Enqueue, Finished, Ended, Accepts, LastWord, After;
    LastEvent(before, e, id);
    ClosedStays(After(before), e.frame);
    if !Ended(before, id) {
      if IsTerminal(e.frame) {
        assert forall f <- Named(Pipe(After(before)), id) :: f in Accepts(before, id);
        OwnEnd(After(before), e.frame, id);
      } else {
        OwnOutput(After(before), e.frame, id);
      }
    }
  }

  lemma StepVouches(before: seq<Event>, e: Event, id: string)
    requires Vouched(before, id) && LastWord(before + [e], id)
    ensures Vouched(before + [e], id)
  {
    hide Vouched, LastWord;
    if !e.Send? {
      TurnVouches(before, e, id);
    } else if e.frame.exec != id {
      OtherVouches(before, e, id);
    } else {
      OwnVouches(before, e, id);
    }
  }

  lemma {:induction false} AlwaysVouched(events: seq<Event>, id: string)
    requires LastWord(events, id)
    ensures Vouched(events, id)
  {
    hide Step, Enqueue;
    if events == [] {
      assert Pipe(EmptyOutbox) == [];
    } else {
      var before, e := events[..|events| - 1], events[|events| - 1];
      assert before + [e] == events;
      hide Vouched;
      LastEvent(before, e, id);
      AlwaysVouched(before, id);
      StepVouches(before, e, id);
    }
  }
}
