/** What the bounded queues take, and what they turn away. */
module QueueAnswers {
  import opened Prelude
  import opened Frames
  import opened OutboxModel
  import I = InboxModel

  /** The bytes a frame is charged with. */
  function Charge(f: Frame): nat {
    512 + |TypeName(f.kind)| + |f.exec| + |f.op| + |f.code| + |f.data| + f.rest
  }

  predicate IsOpen(b: Outbox) {
    !b.closing && !b.cancelled
  }

  /** The outbox with one more frame at its end, and its charge. */
  function With(b: Outbox, f: Frame): Outbox {
    b.(queue := b.queue + [Item(f, Charge(f))], bytes := b.bytes + Charge(f),
       buffered := if f.kind == Stdout || f.kind == Stderr then AddBuffered(b.buffered, f.exec, Charge(f)) else b.buffered)
  }

  /** Output is taken exactly by an open outbox with room for it under all three bounds: 1 MiB of output of its exec,
      224 frames, and all but 128 KiB of the queue's bytes. An outbox without room drops it, and is otherwise as
      before; a closed one says so. */
  lemma OutputTakenExactly(b: Outbox, f: Frame)
    requires f.kind == Stdout || f.kind == Stderr
    ensures var (b', r) := Enqueue(b, f);
      if !IsOpen(b) then (b', r) == (b, Closed)
      else if Buffered(b, f.exec) + Charge(f) <= 1_048_576 && |b.queue| < 224 && b.bytes + Charge(f) <= 10_387_456
      then (b', r) == (With(b, f), Accepted)
      else (b', r) == (b, Dropped)
  {
  }

  /** The queue has room for a control frame. */
  predicate Room(frames: int, bytes: int, f: Frame) {
    frames < 256 && bytes + Charge(f) <= 10_518_528
  }

  /** The queued output of an exec, and how many bytes of it. */
  function Queued(q: seq<Item>, id: string): seq<Item> {
    if q == [] then [] else (if Evicts(q[0], id) then [q[0]] else []) + Queued(q[1..], id)
  }

  function Total(q: seq<Item>): nat {
    if q == [] then 0 else q[0].bytes + Total(q[1..])
  }

  lemma {:induction false} EvictionCounts(q: seq<Item>, id: string)
    ensures |Kept(q, id)| == |q| - |Queued(q, id)| && Sum(q, OutputOf(id)) == Total(Queued(q, id))
  {
    if q != [] {
      EvictionCounts(q[1..], id);
      var rest := Queued(q[1..], id);
      assert ([q[0]] + rest)[1..] == rest && [] + rest == rest;
    }
  }

  /** A control frame is taken by an open outbox with room for it, and a terminal also by one that has room without the
      queued output of its exec; an exit is then marked. Any other open outbox ends. */
  lemma ControlTakenExactly(b: Outbox, f: Frame)
    requires f.kind != Stdout && f.kind != Stderr
    ensures var (b', r) := Enqueue(b, f);
      var output := Queued(b.queue, f.exec);
      var ends := f.kind == Exit || f.kind == Error || f.kind == InvokeNack;
      if !IsOpen(b) then (b', r) == (b, Closed)
      else if Room(|b.queue|, b.bytes, f) then (b', r) == (With(b, f), Accepted)
      else if ends && Room(|b.queue| - |output|, b.bytes - Total(output), f) then
        var g := if f.kind == Exit && output != [] then f.(truncated := true) else f;
        r == Accepted && b'.queue == Kept(b.queue, f.exec) + [Item(g, Charge(f))]
        && b'.bytes == b.bytes - Total(output) + Charge(f) && !b'.closing && !b'.cancelled
      else r == Closed && b'.closing && b'.cancelled && b'.written == b.written && b'.writing == b.writing
  {
    EvictionCounts(b.queue, f.exec);
    ChargeIs(f);
    hide Kept, Sum, AddBuffered, RetainedBytes, Charge, Queued, Total, TypeName;
  }

  lemma ChargeIs(f: Frame)
    ensures RetainedBytes(f) == Charge(f) && RetainedBytes(f.(truncated := true)) == Charge(f)
  {
  }

  /** A reader takes a frame exactly while there is room: output under 32 frames and all but 128 KiB of the bytes,
      anything else under 64 frames and all of them. Output beyond that is dropped, anything else ends the reading. */
  lemma ReaderTakesExactly(i: I.Inbox, f: Frame)
    ensures var (i', r) := I.Offer(i, f);
      var output := f.kind == Stdout || f.kind == Stderr;
      if |i.frames| < (if output then 32 else 64) && i.bytes + Charge(f) <= (if output then 7_241_728 else 7_372_800)
      then r == I.Queued && i' == i.(frames := i.frames + [Item(f, Charge(f))], bytes := i.bytes + Charge(f))
      else i' == i && r == if output then I.OutputDropped else I.Overloaded
  {
  }

  /** What has been taken is handed on in its order, and written in its order: an open outbox with a working network
      writes its queue from the front, one frame in two turns. */
  lemma WriterTakesInOrder(b: Outbox)
    requires !b.stopped && !b.cancelled && b.writing.None? && b.queue != []
    ensures var b1 := Drain(b, true);
      && b1 == b.(writing := Some(b.queue[0]), queue := b.queue[1..])
      && Drain(b1, true).written == b.written + [b.queue[0].frame] && Drain(b1, true).queue == b.queue[1..]
      && Drain(b1, true).writing.None? && Drain(b1, true).bytes == b.bytes - b.queue[0].bytes
      && Drain(b1, false).stopped && Drain(b1, false).written == b.written
  {
  }

  /** A closed outbox writes what it holds before it stops; a cancelled one stops at once. */
  lemma ClosedStopsWhenEmpty(b: Outbox, ok: bool)
    requires !b.stopped && b.writing.None?
    ensures Drain(b, ok).stopped <==> b.cancelled || (b.closing && b.queue == [])
  {
  }
}
