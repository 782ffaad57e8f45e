/** The bounded queue between a connection's reader and its handler (internal/relay/inbox.go). */
module InboxModel {
  import opened Frames
  import opened OutboxModel

  /** `settling` is the size of a frame the handler has received but not yet given back. */
  datatype Inbox = Inbox(frames: seq<Item>, bytes: int, settling: nat)

  datatype Offered = Queued | OutputDropped | Overloaded

  const EmptyInbox := Inbox([], 0, 0)

  function Offer(i: Inbox, f: Frame): (Inbox, Offered) {
    var size := RetainedBytes(f);
    var limit := MAX_RELAY_INBOX_BYTES - if IsOutput(f) then CONTROL_RESERVE_BYTES else 0;
    var refusal := if IsOutput(f) then OutputDropped else Overloaded;
    if i.bytes + size > limit
       || (IsOutput(f) && |i.frames| >= MAX_RELAY_INBOX_FRAMES - CONTROL_RESERVE_FRAMES)
       || |i.frames| >= MAX_RELAY_INBOX_FRAMES
    then (i, refusal)
    else (i.(frames := i.frames + [Item(f, size)], bytes := i.bytes + size), Queued)
  }

  function Receive(i: Inbox): Inbox {
    if i.frames == [] || i.settling != 0 then i
    else i.(frames := i.frames[1..], settling := i.frames[0].bytes)
  }

  function Settle(i: Inbox): Inbox {
    i.(bytes := i.bytes - i.settling, settling := 0)
  }

  predicate Inv(i: Inbox) {
    && i.bytes == Sum(i.frames, Bytes()) + i.settling
    && i.bytes <= MAX_RELAY_INBOX_BYTES && |i.frames| <= MAX_RELAY_INBOX_FRAMES
    && Sum(i.frames, OutputCount()) <= MAX_RELAY_INBOX_FRAMES - CONTROL_RESERVE_FRAMES
    && Sum(i.frames, OutputBytes()) <= MAX_RELAY_INBOX_BYTES - CONTROL_RESERVE_BYTES
  }

  datatype Event = Arrive(frame: Frame) | Take | GiveBack

  function Step(i: Inbox, e: Event): Inbox {
    match e
    case Arrive(f) => Offer(i, f).0
    case Take => Receive(i)
    case GiveBack => Settle(i)
  }

  function Run(i: Inbox, events: seq<Event>): Inbox
    decreases |events|
  {
    if events == [] then i else Run(Step(i, events[0]), events[1..])
  }

  lemma StepKeepsInv(i: Inbox, e: Event)
    requires Inv(i)
    ensures Inv(Step(i, e))
  {
    match e
    case Arrive(f) =>
      var item := Item(f, RetainedBytes(f));
      SumConcat(i.frames, [item], Bytes());
      SumConcat(i.frames, [item], OutputCount());
      SumConcat(i.frames, [item], OutputBytes());
      SumOne(item, Bytes());
      SumOne(item, OutputCount());
      SumOne(item, OutputBytes());
      OutputsAreFrames(i.frames);
      SumPair(i.frames, OutputBytes(), ControlBytes(), Bytes());
    case _ =>
  }

  lemma {:induction false} RunKeepsInv(i: Inbox, events: seq<Event>)
    requires Inv(i)
    ensures Inv(Run(i, events))
    decreases |events|
  {
    if events != [] {
      StepKeepsInv(i, events[0]);
      RunKeepsInv(Step(i, events[0]), events[1..]);
    }
  }

  lemma ControlFits(i: Inbox, f: Frame)
    requires Inv(i) && !IsOutput(f)
    ensures Sum(i.frames, ControlCount()) < CONTROL_RESERVE_FRAMES
            && Sum(i.frames, ControlBytes()) + i.settling + RetainedBytes(f) <= CONTROL_RESERVE_BYTES
            ==> Offer(i, f).1 == Queued
  {
    OutputsAreFrames(i.frames);
    SumPair(i.frames, OutputBytes(), ControlBytes(), Bytes());
  }

  /** Floods of output never make the reader give up on the connection: in every reachable state a
      control frame is taken while fewer than 32 are waiting and the control bytes held, including
      it, fit the reserve. */
  lemma ControlReserve(events: seq<Event>, f: Frame)
    requires !IsOutput(f)
    ensures var i := Run(EmptyInbox, events);
      && Inv(i)
      && (Sum(i.frames, ControlCount()) < CONTROL_RESERVE_FRAMES
          && Sum(i.frames, ControlBytes()) + i.settling + RetainedBytes(f) <= CONTROL_RESERVE_BYTES
          ==> Offer(i, f).1 == Queued)
  {
    hide Run, Inv, Offer, Sum;
    assert Inv(EmptyInbox) by { NothingHeld(); }
    RunKeepsInv(EmptyInbox, events);
    ControlFits(Run(EmptyInbox, events), f);
  }

  lemma NothingHeld()
    ensures Inv(EmptyInbox)
  {
  }

  /** An output frame is never the reason to drop the connection. */
  lemma OutputNeverOverloads(i: Inbox, f: Frame)
    requires IsOutput(f)
    ensures Offer(i, f).1 != Overloaded
    ensures Offer(i, f).1 == OutputDropped ==> Offer(i, f).0 == i
  {
  }

  class ConnectionInbox {
    var frames: seq<Item>
    var bytes: int
    var settling: nat

    function Fields(): Inbox
      reads this
    {
      Inbox(frames, bytes, settling)
    }

    constructor ()
      ensures Fields() == EmptyInbox
    {
      frames, bytes, settling := [], 0, 0;
    }

    /** The size is charged before the bounded channel is tried and given back when it is full. */
    method OfferFrame(m: Frame) returns (result: Offered)
      modifies this
      ensures (Fields(), result) == Offer(old(Fields()), m)
    {
      var size := RetainedBytes(m);
      var output := IsOutput(m);
      var limit := MAX_RELAY_INBOX_BYTES;
      if output {
        limit := limit - CONTROL_RESERVE_BYTES;
      }
      if bytes + size > limit || (output && |frames| >= MAX_RELAY_INBOX_FRAMES - CONTROL_RESERVE_FRAMES) {
        return if output then OutputDropped else Overloaded;
      }
      bytes := bytes + size;
      if |frames| < MAX_RELAY_INBOX_FRAMES {
        frames := frames + [Item(m, size)];
        return Queued;
      }
      bytes := bytes - size;
      return if output then OutputDropped else Overloaded;
    }
  }
}
