/** The bounded queue of frames in front of one connection's network writer
    (internal/relay/outbox.go). */
module OutboxModel {
  import opened Prelude
  import opened Frames

  datatype Item = Item(frame: Frame, bytes: nat)

  /** `writing` is the frame the drain loop has taken off the queue; `written` the frames it has
      handed to the network so far. `cancelled` is the connection's context. */
  datatype Outbox = Outbox(
    queue: seq<Item>, bytes: int, buffered: map<string, int>, writing: Option<Item>,
    closing: bool, cancelled: bool, stopped: bool, written: seq<Frame>)

  datatype Admission = Accepted | Dropped | Closed

  const EmptyOutbox := Outbox([], 0, map[], None, false, false, false, [])

  function Buffered(b: Outbox, id: string): int {
    if id in b.buffered then b.buffered[id] else 0
  }

  /** A counter that reaches zero is removed from the map. */
  function AddBuffered(m: map<string, int>, id: string, delta: int): map<string, int> {
    var now := (if id in m then m[id] else 0) + delta;
    if now == 0 then m - {id} else m[id := now]
  }

  predicate Evicts(i: Item, id: string) {
    IsOutput(i.frame) && i.frame.exec == id
  }

  /** The queue without the output of one exec, in order. */
  function Kept(q: seq<Item>, id: string): seq<Item> {
    if q == [] then [] else (if Evicts(q[0], id) then [] else [q[0]]) + Kept(q[1..], id)
  }

  function Discard(b: Outbox, id: string): (Outbox, bool) {
    var gone: int := Sum(b.queue, OutputOf(id));
    (b.(queue := Kept(b.queue, id), bytes := b.bytes - gone, buffered := AddBuffered(b.buffered, id, -gone)),
     |Kept(b.queue, id)| < |b.queue|)
  }

  predicate Full(b: Outbox, size: nat) {
    |b.queue| >= MAX_RELAY_QUEUE_FRAMES || b.bytes + size > MAX_RELAY_QUEUE_BYTES
  }

  function Append(b: Outbox, f: Frame): Outbox {
    var size := RetainedBytes(f);
    b.(queue := b.queue + [Item(f, size)], bytes := b.bytes + size,
       buffered := if IsOutput(f) then AddBuffered(b.buffered, f.exec, size) else b.buffered)
  }

  function Enqueue(b: Outbox, f: Frame): (Outbox, Admission) {
    var size := RetainedBytes(f);
    if b.closing || b.cancelled then (b, Closed)
    else if IsOutput(f) then
      if Buffered(b, f.exec) + size > MAX_RELAY_BUFFER_BYTES
         || |b.queue| >= MAX_RELAY_QUEUE_FRAMES - CONTROL_RESERVE_FRAMES
         || b.bytes + size > MAX_RELAY_QUEUE_BYTES - CONTROL_RESERVE_BYTES
      then (b, Dropped)
      else (Append(b, f), Accepted)
    else if !Full(b, size) then (Append(b, f), Accepted)
    else
      var (b', dropped) := if IsTerminal(f) then Discard(b, f.exec) else (b, false);
      if Full(b', size) then (b'.(closing := true, cancelled := true), Closed)
      else (Append(b', if dropped && f.kind == Exit then f.(truncated := true) else f), Accepted)
  }

  function Close(b: Outbox): Outbox {
    b.(closing := true)
  }

  /** The context ends: the parent went away or the bounded drain timed out. */
  function Cancel(b: Outbox): Outbox {
    b.(cancelled := true)
  }

  function Stop(b: Outbox): Outbox {
    Outbox([], 0, map[], None, true, true, true, b.written)
  }

  /** One turn of the drain loop; `ok` is how the pending network write ends. */
  function Drain(b: Outbox, ok: bool): Outbox {
    if b.stopped then b
    else
      match b.writing
      case None =>
        if b.cancelled then Stop(b)
        else if b.queue == [] then if b.closing then Stop(b) else b
        else b.(writing := Some(b.queue[0]), queue := b.queue[1..])
      case Some(item) =>
        if ok then WriteDone(b).(written := b.written + [item.frame]) else Stop(WriteDone(b))
  }

  /** The accounting after a network write, however it ended. */
  function WriteDone(b: Outbox): Outbox
    requires b.writing.Some?
  {
    var item := b.writing.value;
    b.(writing := None, bytes := b.bytes - item.bytes,
       buffered := if IsOutput(item.frame) then AddBuffered(b.buffered, item.frame.exec, 0 - item.bytes) else b.buffered)
  }

  // ----- Sums over the queue -------------------------------------------------------------------

  type Weight = Item -> nat

  function Sum(q: seq<Item>, weight: Weight): nat {
    if q == [] then 0 else weight(q[0]) + Sum(q[1..], weight)
  }

  function Bytes(): Weight { (i: Item) => i.bytes }

  function OutputOf(id: string): Weight { (i: Item) => if Evicts(i, id) then i.bytes else 0 }

  function OutputBytes(): Weight { (i: Item) => if IsOutput(i.frame) then i.bytes else 0 }

  function ControlBytes(): Weight { (i: Item) => if IsOutput(i.frame) then 0 else i.bytes }

  function OutputCount(): Weight { (i: Item) => if IsOutput(i.frame) then 1 else 0 }

  function ControlCount(): Weight { (i: Item) => if IsOutput(i.frame) then 0 else 1 }

  /** The queue and, in front of it, the frame being written: everything still charged. */
  function Held(b: Outbox): seq<Item> {
    (if b.writing.Some? then [b.writing.value] else []) + b.queue
  }

  lemma {:induction false} SumConcat(a: seq<Item>, b: seq<Item>, weight: Weight)
    ensures Sum(a + b, weight) == Sum(a, weight) + Sum(b, weight)
  {
    if a == [] {
      assert a + b == b;
    } else {
      assert (a + b)[1..] == a[1..] + b;
      SumConcat(a[1..], b, weight);
    }
  }

  lemma SumOne(i: Item, weight: Weight)
    ensures Sum([i], weight) == weight(i)
  {
    assert [i][1..] == [];
  }

  lemma {:induction false} SumPair(q: seq<Item>, a: Weight, b: Weight, both: Weight)
    requires forall i :: both(i) == a(i) + b(i)
    ensures Sum(q, both) == Sum(q, a) + Sum(q, b)
  {
    if q != [] {
      SumPair(q[1..], a, b, both);
    }
  }

  /** Evicting an exec's output removes exactly what weighs on that output. */
  lemma {:induction false} SumKept(q: seq<Item>, id: string, weight: Weight, gone: Weight)
    requires forall i :: gone(i) == if Evicts(i, id) then weight(i) else 0
    ensures Sum(Kept(q, id), weight) == Sum(q, weight) - Sum(q, gone)
  {
    if q != [] {
      SumKept(q[1..], id, weight, gone);
      var rest := Kept(q[1..], id);
      if !Evicts(q[0], id) {
        assert ([q[0]] + rest)[1..] == rest;
      } else {
        assert [] + rest == rest;
      }
    }
  }

  // ----- Accounting and bounds -----------------------------------------------------------------

  predicate Sized(i: Item) {
    i.bytes == RetainedBytes(i.frame)
  }

  ghost predicate Accounted(b: Outbox) {
    && b.bytes == Sum(Held(b), Bytes())
    && (forall id :: Buffered(b, id) == Sum(Held(b), OutputOf(id)))
    && (forall id <- b.buffered :: b.buffered[id] != 0)
    && (forall i <- Held(b) :: Sized(i))
  }

  ghost predicate Bounded(b: Outbox) {
    && |b.queue| <= MAX_RELAY_QUEUE_FRAMES
    && b.bytes <= MAX_RELAY_QUEUE_BYTES
    && (forall id :: Buffered(b, id) <= MAX_RELAY_BUFFER_BYTES)
    && Sum(b.queue, OutputCount()) <= MAX_RELAY_QUEUE_FRAMES - CONTROL_RESERVE_FRAMES
    && Sum(Held(b), OutputBytes()) <= MAX_RELAY_QUEUE_BYTES - CONTROL_RESERVE_BYTES
  }

  ghost predicate Inv(b: Outbox) {
    Accounted(b) && Bounded(b)
  }

  datatype Event = Send(frame: Frame) | Turn(ok: bool) | CloseIt | CancelIt

  function Step(b: Outbox, e: Event): Outbox {
    match e
    case Send(f) => Enqueue(b, f).0
    case Turn(ok) => Drain(b, ok)
    case CloseIt => Close(b)
    case CancelIt => Cancel(b)
  }

  function Run(b: Outbox, events: seq<Event>): Outbox
    decreases |events|
  {
    if events == [] then b else Run(Step(b, events[0]), events[1..])
  }

  lemma AppendSums(b: Outbox, f: Frame, weight: Weight)
    ensures var item, b' := Item(f, RetainedBytes(f)), Append(b, f);
      && Held(b') == Held(b) + [item]
      && Sum(Held(b'), weight) == Sum(Held(b), weight) + weight(item)
      && Sum(b'.queue, weight) == Sum(b.queue, weight) + weight(item)
  {
    var item := Item(f, RetainedBytes(f));
    assert Held(Append(b, f)) == Held(b) + [item];
    SumConcat(Held(b), [item], weight);
    SumConcat(b.queue, [item], weight);
    SumOne(item, weight);
  }

  lemma AppendKeepsAccounts(b: Outbox, f: Frame)
    requires Accounted(b)
    ensures Accounted(Append(b, f))
  {
    hide Sum, Held, RetainedBytes;
    var b' := Append(b, f);
    AppendSums(b, f, Bytes());
    forall id ensures Buffered(b', id) == Sum(Held(b'), OutputOf(id)) {
      AppendSums(b, f, OutputOf(id));
      assert Buffered(b, id) == Sum(Held(b), OutputOf(id));
    }
  }

  lemma AppendKeepsInv(b: Outbox, f: Frame)
    requires Inv(b)
    requires var size := RetainedBytes(f);
      if IsOutput(f) then
        Buffered(b, f.exec) + size <= MAX_RELAY_BUFFER_BYTES
        && |b.queue| < MAX_RELAY_QUEUE_FRAMES - CONTROL_RESERVE_FRAMES
        && b.bytes + size <= MAX_RELAY_QUEUE_BYTES - CONTROL_RESERVE_BYTES
      else !Full(b, size)
    ensures Inv(Append(b, f))
  {
    AppendKeepsAccounts(b, f);
    hide Accounted, Sum, Held, RetainedBytes;
    AppendSums(b, f, OutputCount());
    AppendSums(b, f, OutputBytes());
    OutputsAreFrames(b.queue);
    SumPair(Held(b), OutputBytes(), ControlBytes(), Bytes());
    assert b.bytes == Sum(Held(b), Bytes()) by { BytesAreSum(b); }
  }

  lemma BytesAreSum(b: Outbox)
    requires Accounted(b)
    ensures b.bytes == Sum(Held(b), Bytes())
  {
  }

  lemma {:induction false} OutputsAreFrames(q: seq<Item>)
    ensures Sum(q, OutputCount()) + Sum(q, ControlCount()) == |q|
  {
    if q != [] {
      OutputsAreFrames(q[1..]);
    }
  }

  lemma {:induction false} KeptMembers(q: seq<Item>, id: string)
    ensures |Kept(q, id)| <= |q|
    ensures forall i <- Kept(q, id) :: i in q
  {
    if q != [] {
      KeptMembers(q[1..], id);
    }
  }

  lemma DiscardKeepsInv(b: Outbox, id: string)
    requires Inv(b)
    ensures Inv(Discard(b, id).0)
  {
    var b' := Discard(b, id).0;
    var front := if b.writing.Some? then [b.writing.value] else [];
    KeptMembers(b.queue, id);
    SumKept(b.queue, id, Bytes(), OutputOf(id));
    SumKept(b.queue, id, OutputBytes(), OutputOf(id));
    EvictedFrames(b.queue, id);
    forall weight: Weight
      ensures Sum(Held(b), weight) == Sum(front, weight) + Sum(b.queue, weight)
      ensures Sum(Held(b'), weight) == Sum(front, weight) + Sum(b'.queue, weight)
    {
      SumConcat(front, b.queue, weight);
      SumConcat(front, b'.queue, weight);
    }
    forall other ensures Buffered(b', other) == Sum(Held(b'), OutputOf(other)) {
      OthersKept(b.queue, id, other);
    }
  }

  lemma {:induction false} EvictedFrames(q: seq<Item>, id: string)
    ensures Sum(Kept(q, id), OutputCount()) <= Sum(q, OutputCount())
  {
    if q != [] {
      EvictedFrames(q[1..], id);
      var rest := Kept(q[1..], id);
      assert ([q[0]] + rest)[1..] == rest;
      assert [] + rest == rest;
    }
  }

  lemma {:induction false} OthersKept(q: seq<Item>, id: string, other: string)
    ensures Sum(Kept(q, id), OutputOf(other)) == if other == id then 0 else Sum(q, OutputOf(other))
  {
    if q != [] {
      OthersKept(q[1..], id, other);
      var rest := Kept(q[1..], id);
      assert ([q[0]] + rest)[1..] == rest;
      assert [] + rest == rest;
    }
  }

  lemma DrainKeepsInv(b: Outbox, ok: bool)
    requires Inv(b)
    ensures Inv(Drain(b, ok))
  {
    hide Inv;
    StopKeepsInv(b);
    if !b.stopped && b.writing.None? && b.queue != [] {
      TakeKeepsInv(b);
    } else if !b.stopped && b.writing.Some? {
      WrittenKeepsInv(b);
      StopKeepsInv(WriteDone(b));
      OnlyAccountsMatter(WriteDone(b), WriteDone(b).(written := b.written + [b.writing.value.frame]));
    }
  }

  lemma OnlyAccountsMatter(b: Outbox, b': Outbox)
    requires Inv(b) && b' == b.(closing := b'.closing, cancelled := b'.cancelled, stopped := b'.stopped, written := b'.written)
    ensures Inv(b')
  {
    assert Held(b') == Held(b);
  }

  lemma StopKeepsInv(b: Outbox)
    ensures Inv(Stop(b))
  {
    assert Held(Stop(b)) == [];
  }

  lemma TakeKeepsInv(b: Outbox)
    requires Inv(b) && b.writing.None? && b.queue != []
    ensures Inv(b.(writing := Some(b.queue[0]), queue := b.queue[1..]))
  {
    var b' := b.(writing := Some(b.queue[0]), queue := b.queue[1..]);
    assert Held(b') == b.queue == Held(b);
    SumFirst(b.queue, OutputCount());
    hide Held, Sum, Sized;
    forall id ensures Buffered(b', id) == Sum(Held(b'), OutputOf(id)) <= MAX_RELAY_BUFFER_BYTES {
      AccountedFor(b, id);
    }
  }

  lemma SumFirst(q: seq<Item>, weight: Weight)
    requires q != []
    ensures Sum(q, weight) == weight(q[0]) + Sum(q[1..], weight) >= Sum(q[1..], weight)
  {
  }

  /** Once the write is over, everything charged is what the queue holds. */
  lemma WrittenSums(b: Outbox, weight: Weight)
    requires b.writing.Some?
    ensures Held(WriteDone(b)) == b.queue && Sum(Held(b), weight) == weight(b.writing.value) + Sum(b.queue, weight)
  {
    assert Held(b)[1..] == b.queue;
  }

  lemma AccountedFor(b: Outbox, id: string)
    requires Accounted(b)
    ensures Buffered(b, id) == Sum(Held(b), OutputOf(id))
  {
    hide Sum, Held, Sized;
  }

  lemma WrittenBuffered(b: Outbox, id: string)
    requires Accounted(b) && b.writing.Some?
    ensures Buffered(WriteDone(b), id) == Sum(b.queue, OutputOf(id))
  {
    hide Accounted, Sum, Held;
    AccountedFor(b, id);
    WrittenSums(b, OutputOf(id));
  }

  lemma WrittenNonZero(b: Outbox)
    requires b.writing.Some? && forall id <- b.buffered :: b.buffered[id] != 0
    ensures forall id <- WriteDone(b).buffered :: WriteDone(b).buffered[id] != 0
  {
  }

  lemma WrittenKeepsAccounts(b: Outbox)
    requires Accounted(b) && b.writing.Some?
    ensures Accounted(WriteDone(b))
  {
    hide Sum, Sized, Buffered, AddBuffered;
    WrittenNonZero(b);
    WrittenSums(b, Bytes());
    WrittenSized(b);
    forall id ensures Buffered(WriteDone(b), id) == Sum(Held(WriteDone(b)), OutputOf(id)) {
      WrittenBuffered(b, id);
      WrittenSums(b, OutputOf(id));
    }
    hide Held;
  }

  lemma WrittenSized(b: Outbox)
    requires b.writing.Some? && forall i <- Held(b) :: Sized(i)
    ensures Sized(b.writing.value) && forall i <- Held(WriteDone(b)) :: Sized(i)
  {
    assert Held(b)[0] == b.writing.value;
    assert forall i <- b.queue :: i in Held(b);
    hide Sized;
  }

  lemma WrittenKeepsInv(b: Outbox)
    requires Inv(b) && b.writing.Some?
    ensures Inv(WriteDone(b))
  {
    WrittenKeepsAccounts(b);
    hide Accounted, Sum;
    WrittenSums(b, OutputBytes());
    assert b.bytes == Sum(Held(b), Bytes()) by { BytesAreSum(b); }
    forall id ensures Buffered(WriteDone(b), id) <= MAX_RELAY_BUFFER_BYTES {
      assert Buffered(b, id) <= MAX_RELAY_BUFFER_BYTES;
    }
  }

  lemma EnqueueKeepsInv(b: Outbox, f: Frame)
    requires Inv(b)
    ensures Inv(Enqueue(b, f).0)
  {
    hide Inv;
    if !b.closing && !b.cancelled {
      var size := RetainedBytes(f);
      var b' := if !IsOutput(f) && Full(b, size) && IsTerminal(f) then Discard(b, f.exec).0 else b;
      DiscardKeepsInv(b, f.exec);
      var last := f.(truncated := true);
      FlagsKeepInv(b');
      if Enqueue(b, f).1 == Accepted {
        if Enqueue(b, f).0 == Append(b', f) {
          AppendKeepsInv(b', f);
        } else {
          AppendKeepsInv(b', last);
        }
      }
    }
  }

  lemma FlagsKeepInv(b: Outbox)
    requires Inv(b)
    ensures Inv(Close(b)) && Inv(Cancel(b)) && Inv(b.(closing := true, cancelled := true))
  {
    hide Inv;
    OnlyAccountsMatter(b, Close(b));
    OnlyAccountsMatter(b, Cancel(b));
    OnlyAccountsMatter(b, b.(closing := true, cancelled := true));
  }

  /** In every history the byte totals are the sums over what is queued and being written, and all
      bounds hold. */
  lemma {:induction false} AccountsAlwaysBalance(b: Outbox, events: seq<Event>)
    requires Inv(b)
    ensures Inv(Run(b, events))
    decreases |events|
  {
    if events != [] {
      match events[0] {
        case Send(f) => EnqueueKeepsInv(b, f);
        case Turn(ok) => DrainKeepsInv(b, ok);
        case CloseIt => FlagsKeepInv(b);
        case CancelIt => FlagsKeepInv(b);
      }
      AccountsAlwaysBalance(Step(b, events[0]), events[1..]);
    }
  }

  /** However much output floods in, an open connection accepts a control frame while fewer than 32
      control frames are queued and the control bytes held, including it, are at most 128 KiB. */
  lemma ControlReserve(events: seq<Event>, f: Frame)
    requires !IsOutput(f)
    ensures var b := Run(EmptyOutbox, events);
      && !b.closing && !b.cancelled
      && Sum(b.queue, ControlCount()) < CONTROL_RESERVE_FRAMES
      && Sum(Held(b), ControlBytes()) + RetainedBytes(f) <= CONTROL_RESERVE_BYTES
      ==> Enqueue(b, f) == (Append(b, f), Accepted)
  {
    assert Inv(EmptyOutbox);
    AccountsAlwaysBalance(EmptyOutbox, events);
    var b := Run(EmptyOutbox, events);
    OutputsAreFrames(b.queue);
    SumPair(Held(b), OutputBytes(), ControlBytes(), Bytes());
  }

  // ----- What eviction touches -----------------------------------------------------------------

  /** The queued frames that concern one exec and those that do not. */
  function About(q: seq<Item>, id: string): seq<Item> {
    if q == [] then [] else (if q[0].frame.exec == id then [q[0]] else []) + About(q[1..], id)
  }

  function NotAbout(q: seq<Item>, id: string): seq<Item> {
    if q == [] then [] else (if q[0].frame.exec != id then [q[0]] else []) + NotAbout(q[1..], id)
  }

  lemma AboutFirst(q: seq<Item>, id: string)
    requires q != []
    ensures About(q, id) == (if q[0].frame.exec == id then [q[0]] else []) + About(q[1..], id)
    ensures NotAbout(q, id) == (if q[0].frame.exec != id then [q[0]] else []) + NotAbout(q[1..], id)
  {
  }

  lemma {:induction false} AboutConcat(a: seq<Item>, b: seq<Item>, id: string)
    ensures About(a + b, id) == About(a, id) + About(b, id)
    ensures NotAbout(a + b, id) == NotAbout(a, id) + NotAbout(b, id)
  {
    var all := a + b;
    if a == [] {
      assert all == b;
    } else {
      assert all[0] == a[0] && all[1..] == a[1..] + b;
      AboutConcat(a[1..], b, id);
      AboutFirst(all, id);
      AboutFirst(a, id);
      hide About, NotAbout;
    }
  }

  lemma {:induction false} AboutHead(q: seq<Item>, id: string)
    requires q != []
    ensures About(q, id) == About([q[0]], id) + About(q[1..], id)
    ensures NotAbout(q, id) == NotAbout([q[0]], id) + NotAbout(q[1..], id)
    ensures About([q[0]], id) == (if q[0].frame.exec == id then [q[0]] else []) && About([], id) == []
    ensures NotAbout([q[0]], id) == (if q[0].frame.exec != id then [q[0]] else []) && NotAbout([], id) == []
  {
    AboutFirst(q, id);
    AboutFirst([q[0]], id);
    NothingAbout(id);
    assert [q[0]][1..] == [];
    hide About, NotAbout;
  }

  lemma NothingAbout(id: string)
    ensures About([], id) == [] && NotAbout([], id) == []
  {
  }

  /** Eviction for one exec leaves every frame of every other exec in place and in order, and of its
      own frames only the ones that are not output. */
  lemma {:induction false} EvictionKeepsOthers(q: seq<Item>, id: string, other: string)
    ensures NotAbout(Kept(q, id), id) == NotAbout(q, id)
    ensures other != id ==> About(Kept(q, id), other) == About(q, other)
    ensures forall i <- About(Kept(q, id), id) :: !IsOutput(i.frame)
  {
    if q != [] {
      EvictionKeepsOthers(q[1..], id, other);
      var head := if Evicts(q[0], id) then [] else [q[0]];
      AboutConcat(head, Kept(q[1..], id), id);
      AboutConcat(head, Kept(q[1..], id), other);
      AboutHead(q, id);
      AboutHead(q, other);
      hide About, NotAbout;
    }
  }

  // ----- The same outbox as an object ----------------------------------------------------------

  lemma {:induction false} KeptConcat(a: seq<Item>, b: seq<Item>, id: string)
    ensures Kept(a + b, id) == Kept(a, id) + Kept(b, id)
  {
    if a == [] {
      assert a + b == b;
    } else {
      assert (a + b)[1..] == a[1..] + b;
      KeptConcat(a[1..], b, id);
    }
  }

  lemma NoItems(id: string)
    ensures Kept([], id) == [] && Sum([], OutputOf(id)) == 0
  {
  }

  lemma OneMoreItem(q: seq<Item>, i: nat, id: string)
    requires i < |q|
    ensures Kept(q[..i + 1], id) == Kept(q[..i], id) + if Evicts(q[i], id) then [] else [q[i]]
    ensures Sum(q[..i + 1], OutputOf(id)) == Sum(q[..i], OutputOf(id)) + if Evicts(q[i], id) then q[i].bytes else 0
  {
    assert q[..i + 1] == q[..i] + [q[i]];
    KeptConcat(q[..i], [q[i]], id);
    SumConcat(q[..i], [q[i]], OutputOf(id));
    SumOne(q[i], OutputOf(id));
  }

  class ConnectionOutbox {
    var queue: seq<Item>
    var bytes: int
    var buffered: map<string, int>
    var writing: Option<Item>
    var closing: bool
    var cancelled: bool
    var stopped: bool
    var written: seq<Frame>

    function Fields(): Outbox
      reads this
    {
      Outbox(queue, bytes, buffered, writing, closing, cancelled, stopped, written)
    }

    constructor ()
      ensures Fields() == EmptyOutbox
    {
      queue, bytes, buffered, writing := [], 0, map[], None;
      closing, cancelled, stopped, written := false, false, false, [];
    }

    method EnqueueFrame(m: Frame) returns (result: Admission)
      modifies this
      ensures (Fields(), result) == Enqueue(old(Fields()), m)
    {
      hide AddBuffered, Kept, Sum;
      if closing || cancelled {
        return Closed;
      }
      var size := RetainedBytes(m);
      var out := m;
      if IsOutput(m) {
        if (if m.exec in buffered then buffered[m.exec] else 0) + size > MAX_RELAY_BUFFER_BYTES
           || |queue| >= MAX_RELAY_QUEUE_FRAMES - CONTROL_RESERVE_FRAMES
           || bytes + size > MAX_RELAY_QUEUE_BYTES - CONTROL_RESERVE_BYTES {
          return Dropped;
        }
      } else if |queue| >= MAX_RELAY_QUEUE_FRAMES || bytes + size > MAX_RELAY_QUEUE_BYTES {
        if IsTerminal(m) {
          var dropped := DiscardOutput(m.exec);
          if dropped && m.kind == Exit {
            out := out.(truncated := true);
          }
        }
        if |queue| >= MAX_RELAY_QUEUE_FRAMES || bytes + size > MAX_RELAY_QUEUE_BYTES {
          closing, cancelled := true, true;
          return Closed;
        }
      }
      queue := queue + [Item(out, size)];
      bytes := bytes + size;
      if IsOutput(m) {
        buffered := AddBuffered(buffered, m.exec, size);
      }
      return Accepted;
    }

    /** Filters the queue in one pass, giving back the bytes of each evicted frame as it goes. */
    method DiscardOutput(id: string) returns (dropped: bool)
      modifies this
      ensures (Fields(), dropped) == Discard(old(Fields()), id)
    {
      hide Kept, Sum;
      NoItems(id);
      dropped := false;
      var kept: seq<Item> := [];
      var before := queue;
      ghost var charged, counters, held := bytes, buffered, Buffered(Fields(), id);
      assert before[..0] == [];
      for i := 0 to |before|
        invariant queue == before && writing == old(writing) && closing == old(closing)
        invariant cancelled == old(cancelled) && stopped == old(stopped) && written == old(written)
        invariant kept == Kept(before[..i], id) && |kept| <= i && (dropped <==> |kept| < i)
        invariant bytes == charged - Sum(before[..i], OutputOf(id))
        invariant !dropped ==> Sum(before[..i], OutputOf(id)) == 0
        invariant buffered == if dropped then counters[id := held - Sum(before[..i], OutputOf(id))] else counters
      {
        OneMoreItem(before, i, id);
        if Evicts(before[i], id) {
          bytes := bytes - before[i].bytes;
          buffered := buffered[id := (if id in buffered then buffered[id] else 0) - before[i].bytes];
          dropped := true;
        } else {
          kept := kept + [before[i]];
        }
      }
      assert before[..|before|] == before;
      queue := kept;
      ghost var now := held - Sum(before, OutputOf(id));
      assert counters[id := now] - {id} == counters - {id};
      assert !dropped && now != 0 ==> counters[id := now] == counters;
      if (if id in buffered then buffered[id] else 0) == 0 {
        buffered := buffered - {id};
      }
    }

    method RequestClose()
      modifies this
      ensures Fields() == Close(old(Fields()))
    {
      closing := true;
    }

    /** One turn of the writer: take the head, or account for the write that just ended. */
    method TakeTurn(ok: bool)
      modifies this
      ensures Fields() == Drain(old(Fields()), ok)
    {
      if stopped {
        return;
      }
      if writing.None? {
        if cancelled || (queue == [] && closing) {
          Finish();
        } else if queue != [] {
          writing, queue := Some(queue[0]), queue[1..];
        }
        return;
      }
      var item := writing.value;
      writing, bytes := None, bytes - item.bytes;
      if IsOutput(item.frame) {
        buffered := AddBuffered(buffered, item.frame.exec, 0 - item.bytes);
      }
      if ok {
        written := written + [item.frame];
      } else {
        Finish();
      }
    }

    method Finish()
      modifies this
      ensures Fields() == Stop(old(Fields()))
    {
      queue, bytes, buffered, writing := [], 0, map[], None;
      closing, cancelled, stopped := true, true, true;
    }
  }
}
