/** Sending text as bounded stdout frames (internal/noderun/ops.go, internal/noderun/wsconn.go). */
module Framing {
  import opened Prelude
  import opened Utf8
  import opened Frames

  // ----- The size of a frame on the wire -----------------------------------------------------------

  predicate ShortEscape(b: byte) {
    b == 0x22 || b == 0x5C || b == 8 || b == 9 || b == 10 || b == 12 || b == 13
  }

  /** How many bytes the JSON encoder writes for the text: control characters and <, >, & as six-byte
      escapes, U+2028 and U+2029 likewise, a byte of malformed text as the replacement escape. */
  function EscapedLength(data: Text): nat
    decreases |data|
  {
    if data == [] then 0
    else
      var n := RuneLength(data);
      if n == 0 || n > |data| then 6 + EscapedLength(data[1..])
      else if n == 1 then
        (if ShortEscape(data[0]) then 2
         else if data[0] < 0x20 || data[0] == 0x3C || data[0] == 0x3E || data[0] == 0x26 then 6 else 1)
        + EscapedLength(data[1..])
      else
        (if n == 3 && data[0] == 0xE2 && data[1] == 0x80 && (data[2] == 0xA8 || data[2] == 0xA9) then 6 else n)
        + EscapedLength(data[n..])
  }

  /** Escaping grows text at most six times. */
  lemma {:induction false} EscapedAtMostSixTimes(data: Text)
    ensures EscapedLength(data) <= 6 * |data|
    decreases |data|
  {
    if data != [] {
      var n := RuneLength(data);
      EscapedAtMostSixTimes(data[1..]);
      if 1 < n <= |data| {
        EscapedAtMostSixTimes(data[n..]);
      }
    }
  }

  /** {"type":"stdout","exec_id":"...","data":"..."} */
  function WireSize(exec: Text, data: Text): nat {
    40 + EscapedLength(exec) + EscapedLength(data)
  }

  // ----- Cutting text into frames --------------------------------------------------------------------

  function BudgetFor(frame: int, message: int, envelope: int): nat {
    var wire := message - envelope;
    var max := if wire > 0 && frame > wire / 6 then wire / 6 else frame;
    if max < 1 then 1 else max
  }

  function FrameBudget(): nat {
    BudgetFor(MAX_FRAME_BYTES, MAX_WS_MESSAGE_BYTES, MAX_ENVELOPE_BYTES)
  }

  function SkipTails(data: Text): Text {
    if data != [] && !RuneStart(data[0]) then SkipTails(data[1..]) else data
  }

  function LongestValid(data: Text, max: nat): (n: nat)
    requires max <= |data|
    ensures n <= max && Valid(data[..n])
  {
    if max == 0 then assert data[..0] == []; 0 else if Valid(data[..max]) then max else LongestValid(data, max - 1)
  }

  /** The next frame and what is left; an empty frame means nothing more can be sent. */
  function NextFrame(data: Text, max: nat): (r: (Text, Text))
    ensures |r.0| <= max && Valid(r.0)
    ensures r.0 != [] ==> |r.1| < |data|
  {
    var rest := SkipTails(data);
    SkipIsSuffix(data);
    if rest == [] then ([], [])
    else
      var n := LongestValid(rest, Min(max, |rest|));
      if n == 0 then ([], []) else (rest[..n], rest[n..])
  }

  lemma {:induction false} SkipIsSuffix(data: Text)
    ensures |SkipTails(data)| <= |data| && SkipTails(data) == data[|data| - |SkipTails(data)|..]
  {
    if data != [] && !RuneStart(data[0]) {
      SkipIsSuffix(data[1..]);
    }
  }

  method NextUTF8Frame(input: Text, budget: nat) returns (frame: Text, rest: Text)
    ensures (frame, rest) == NextFrame(input, budget)
  {
    var i := 0;
    while i < |input| && !RuneStart(input[i])
      invariant i <= |input| && SkipTails(input[i..]) == SkipTails(input)
    {
      i := i + 1;
    }
    var data := input[i..];
    if |data| == 0 {
      return [], [];
    }
    var max: nat := budget;
    if max > |data| {
      max := |data|;
    }
    while max > 0 && !Valid(data[..max])
      invariant max <= |data| && LongestValid(data, max) == LongestValid(data, Min(budget, |data|))
    {
      max := max - 1;
    }
    if max == 0 {
      return [], [];
    }
    return data[..max], data[max..];
  }

  /** All frames the sender would produce. */
  function FramesOf(data: Text, max: nat): seq<Text>
    decreases |data|
  {
    if data == [] then []
    else
      var (frame, rest) := NextFrame(data, max);
      if frame == [] then [] else [frame] + FramesOf(rest, max)
  }

  function Concat(frames: seq<Text>): Text {
    if frames == [] then [] else frames[0] + Concat(frames[1..])
  }

  // ----- Framing is lossless -------------------------------------------------------------------------

  lemma {:induction false} LongestValidIsLongest(data: Text, max: nat, n: nat)
    requires n <= max <= |data| && Valid(data[..n])
    ensures n <= LongestValid(data, max)
  {
    if max > 0 && !Valid(data[..max]) {
      LongestValidIsLongest(data, max - 1, n);
    }
  }

  lemma FirstRuneFits(data: Text)
    requires Valid(data) && data != []
    ensures 0 < RuneLength(data) <= 4 && RuneLength(data) <= |data| && Valid(data[..RuneLength(data)])
  {
    FirstRune(data);
    RuneLocal(data, 0);
  }

  lemma StartsRune(data: Text)
    requires Valid(data) && data != []
    ensures SkipTails(data) == data
  {
    FirstRuneFits(data);
    hide Valid;
  }

  lemma FrameOfValid(data: Text, max: nat)
    requires Valid(data) && data != []
    ensures var n := LongestValid(data, Min(max, |data|));
      NextFrame(data, max) == if n == 0 then ([], []) else (data[..n], data[n..])
  {
    StartsRune(data);
    hide Valid, LongestValid, SkipTails;
  }

  /** A frame of well-formed text leaves well-formed text behind. */
  lemma {:induction false} NextFrameSplits(data: Text, max: nat)
    requires Valid(data)
    ensures var (frame, rest) := NextFrame(data, max);
      frame != [] ==> data == frame + rest && Valid(rest)
  {
    if data != [] {
      FrameOfValid(data, max);
      hide Valid, LongestValid, NextFrame;
      var n := LongestValid(data, Min(max, |data|));
      ValidConcat(data[..n], data[n..]);
      assert data == data[..n] + data[n..];
    }
  }

  /** With a budget of at least four bytes it is never empty. */
  lemma {:induction false} NextFrameProgress(data: Text, max: nat)
    requires Valid(data) && data != [] && max >= 4
    ensures var (frame, rest) := NextFrame(data, max);
      frame != [] && data == frame + rest && Valid(rest)
  {
    NextFrameSplits(data, max);
    FirstRuneFits(data);
    StartsRune(data);
    hide Valid, RuneLength, RuneStart;
    LongestValidIsLongest(data, Min(max, |data|), RuneLength(data));
  }

  /** Well-formed text is cut without loss into well-formed, non-empty frames within the budget. */
  lemma {:induction false} FramingIsLossless(data: Text, max: nat)
    requires Valid(data) && max >= 4
    ensures Concat(FramesOf(data, max)) == data
    ensures forall f <- FramesOf(data, max) :: Valid(f) && 0 < |f| <= max
    decreases |data|
  {
    if data != [] {
      NextFrameProgress(data, max);
      var (frame, rest) := NextFrame(data, max);
      FramingIsLossless(rest, max);
    }
  }

  /** And only well-formed text is: the frames give back the data exactly when it is valid. */
  lemma LosslessExactlyForValidText(data: Text, max: nat)
    requires max >= 4
    ensures Concat(FramesOf(data, max)) == data <==> Valid(data)
  {
    if Valid(data) {
      FramingIsLossless(data, max);
    }
    ConcatOfFramesIsValid(data, max);
  }

  lemma {:induction false} ConcatOfFramesIsValid(data: Text, max: nat)
    ensures Valid(Concat(FramesOf(data, max)))
    decreases |data|
  {
    if data != [] {
      var (frame, rest) := NextFrame(data, max);
      if frame != [] {
        ConcatOfFramesIsValid(rest, max);
        ValidConcat(frame, Concat(FramesOf(rest, max)));
      }
    }
  }

  // ----- The sending loop ----------------------------------------------------------------------------

  datatype SendError = MessageTooLarge | ConnectionFailed

  /** A connection that can still carry `capacity` frames before it fails. */
  class Link {
    var sent: seq<Text>
    var capacity: nat

    constructor (capacity: nat)
      ensures sent == [] && this.capacity == capacity
    {
      sent, this.capacity := [], capacity;
    }

    method Send(exec: Text, data: Text) returns (err: Option<SendError>)
      modifies this
      ensures err == if WireSize(exec, data) > MAX_WS_MESSAGE_BYTES then Some(MessageTooLarge)
                     else if old(capacity) == 0 then Some(ConnectionFailed) else None
      ensures sent == if err.None? then old(sent) + [data] else old(sent)
      ensures capacity == if err.None? then old(capacity) - 1 else old(capacity)
    {
      if WireSize(exec, data) > MAX_WS_MESSAGE_BYTES {
        return Some(MessageTooLarge);
      }
      if capacity == 0 {
        return Some(ConnectionFailed);
      }
      sent, capacity := sent + [data], capacity - 1;
      return None;
    }
  }

  /** The exec ID leaves room for a full frame however its text escapes. */
  predicate IdFits(exec: Text) {
    WireSize(exec, []) + 6 * FrameBudget() <= MAX_WS_MESSAGE_BYTES
  }

  lemma FrameFits(exec: Text, frame: Text)
    requires IdFits(exec) && |frame| <= FrameBudget()
    ensures WireSize(exec, frame) <= MAX_WS_MESSAGE_BYTES
  {
    EscapedAtMostSixTimes(frame);
  }

  /** Control characters, which escape to six bytes each. */
  function Bells(n: nat): Text {
    if n == 0 then [] else [7] + Bells(n - 1)
  }

  lemma {:induction false} BellsEscape(n: nat)
    ensures Valid(Bells(n)) && |Bells(n)| == n && EscapedLength(Bells(n)) == 6 * n
  {
    if n > 0 {
      BellsEscape(n - 1);
      assert Bells(n)[1..] == Bells(n - 1);
      assert [7][1..] == [];
      ValidConcat([7], Bells(n - 1));
    }
  }

  /** The size limit can never be hit exactly for the exec IDs that fit; every ID of up to 988 thousand
      bytes does. */
  lemma SizeLimitExactly(exec: Text)
    ensures IdFits(exec) <==>
      forall frame: Text :: Valid(frame) && |frame| <= FrameBudget() ==> WireSize(exec, frame) <= MAX_WS_MESSAGE_BYTES
    ensures |exec| <= 988_000 ==> IdFits(exec)
  {
    EscapedAtMostSixTimes(exec);
    BellsEscape(FrameBudget());
    hide EscapedLength, Valid, Bells;
    NothingEscapes();
    if IdFits(exec) {
      forall frame: Text | |frame| <= FrameBudget() ensures WireSize(exec, frame) <= MAX_WS_MESSAGE_BYTES {
        FrameFits(exec, frame);
      }
    } else {
      assert WireSize(exec, Bells(FrameBudget())) > MAX_WS_MESSAGE_BYTES;
    }
  }

  lemma NothingEscapes()
    ensures EscapedLength([]) == 0
  {
  }

  lemma {:induction false} ConcatMore(frames: seq<Text>, frame: Text)
    ensures Concat(frames + [frame]) == Concat(frames) + frame
  {
    if frames == [] {
      assert [frame][1..] == [] && Concat([]) == [];
    } else {
      assert (frames + [frame])[1..] == frames[1..] + [frame];
      ConcatMore(frames[1..], frame);
    }
  }

  /** What has gone out of well-formed text, and what has not. */
  predicate Sending(input: Text, out: seq<Text>, data: Text) {
    && (forall f <- out :: Valid(f) && 0 < |f| <= MAX_FRAME_BYTES)
    && (Valid(input) ==> Valid(data) && Concat(out) + data == input)
  }

  lemma BudgetIsSmall()
    ensures FrameBudget() <= MAX_FRAME_BYTES
  {
  }

  lemma SendingMore(input: Text, out: seq<Text>, data: Text, max: nat)
    requires Sending(input, out, data) && data != [] && max <= FrameBudget() && NextFrame(data, max).0 != []
    ensures Sending(input, out + [NextFrame(data, max).0], NextFrame(data, max).1)
  {
    hide NextFrame, Valid, Concat;
    var (frame, rest) := NextFrame(data, max);
    ConcatMore(out, frame);
    BudgetIsSmall();
    if Valid(input) {
      NextFrameSplits(data, max);
      assert Concat(out) + (frame + rest) == Concat(out) + frame + rest;
    }
  }

  /** With an exec ID that fits the loop is following the lossless cut. */
  predicate OnTrack(exec: Text, frames: seq<Text>, out: seq<Text>, data: Text, max: nat) {
    IdFits(exec) ==> max == FrameBudget() && out <= frames && frames[|out|..] == FramesOf(data, max)
  }

  lemma OnTrackMore(exec: Text, frames: seq<Text>, out: seq<Text>, data: Text, max: nat)
    requires OnTrack(exec, frames, out, data, max)
    ensures var (frame, rest) := NextFrame(data, max);
      && (data != [] && frame != [] ==>
            OnTrack(exec, frames, out + [frame], rest, max)
            && (IdFits(exec) ==> |out| < |frames| && WireSize(exec, frame) <= MAX_WS_MESSAGE_BYTES))
      && (data == [] || frame == [] ==> IdFits(exec) ==> out == frames)
  {
    hide NextFrame, IdFits, WireSize;
    var (frame, rest) := NextFrame(data, max);
    if IdFits(exec) {
      FrameFits(exec, frame);
      assert out + frames[|out|..] == frames;
      assert data != [] && frame != [] ==> frames[|out|..][1..] == frames[|out| + 1..];
    }
  }

  /** Whatever the exec ID, of well-formed text the receiver gets a first part, in well-formed frames within
      the budget. With an exec ID that fits the size limit is never hit, so the budget is never halved, and
      the frames sent are, in order, a prefix of the lossless cut of the data: all of them unless the
      connection fails. */
  method SendStdoutFrames(link: Link, exec: Text, input: Text) returns (err: Option<SendError>)
    modifies link
    ensures IdFits(exec) ==>
      var frames := FramesOf(input, FrameBudget());
      var count := if old(link.capacity) < |frames| then old(link.capacity) else |frames|;
      && err != Some(MessageTooLarge)
      && link.sent == old(link.sent) + frames[..count]
      && (err.None? <==> count == |frames|)
    ensures old(link.sent) <= link.sent
    ensures var out := link.sent[|old(link.sent)|..];
      && (forall f <- out :: Valid(f) && 0 < |f| <= MAX_FRAME_BYTES)
      && (Valid(input) ==> Concat(out) <= input)
  {
    hide NextFrame, FramesOf, Valid, Concat, IdFits, WireSize, OnTrack, FrameBudget;
    var max: nat := FrameBudget();
    var data := input;
    ghost var was, frames, out := link.sent, FramesOf(input, max), [];
    Starts(exec, input);
    while |data| > 0
      invariant max <= FrameBudget() && link.sent == was + out
      invariant link.capacity == old(link.capacity) - |out|
      invariant Sending(input, out, data) && OnTrack(exec, frames, out, data, max)
      decreases |data|, max
    {
      OnTrackMore(exec, frames, out, data, max);
      var frame, rest := NextUTF8Frame(data, max);
      if |frame| == 0 {
        assert IdFits(exec) ==> frames[..|out|] == frames;
        return None;
      }
      err := link.Send(exec, frame);
      if err.Some? {
        LeavesTrack(exec, frames, out, data, max);
        if err.value == MessageTooLarge && max > 1 {
          max := max / 2;
          continue;
        }
        return err;
      }
      SendingMore(input, out, data, max);
      out := out + [frame];
      data := rest;
    }
    OnTrackMore(exec, frames, out, data, max);
    assert IdFits(exec) ==> frames[..|out|] == frames;
    return None;
  }

  lemma Starts(exec: Text, input: Text)
    ensures Sending(input, [], input) && OnTrack(exec, FramesOf(input, FrameBudget()), [], input, FrameBudget())
  {
    hide NextFrame, FramesOf, Valid, IdFits, FrameBudget;
    assert [] + input == input;
  }

  /** Only an exec ID that does not fit loses the track; otherwise what went out is a first part of it. */
  lemma LeavesTrack(exec: Text, frames: seq<Text>, out: seq<Text>, data: Text, max: nat)
    requires OnTrack(exec, frames, out, data, max)
    ensures IdFits(exec) ==> |out| <= |frames| && out == frames[..|out|]
    ensures !IdFits(exec) ==> OnTrack(exec, frames, out, data, max / 2)
  {
  }

  /** Putting it together: over a connection that does not fail, the receiver reads back the text. */
  method SendText(link: Link, exec: Text, input: Text) returns (err: Option<SendError>)
    requires IdFits(exec) && Valid(input)
    requires link.capacity >= |FramesOf(input, FrameBudget())|
    modifies link
    ensures err.None? && old(link.sent) <= link.sent && Concat(link.sent[|old(link.sent)|..]) == input
    ensures forall f <- link.sent[|old(link.sent)|..] :: Valid(f) && 0 < |f| <= MAX_FRAME_BYTES
  {
    FramingIsLossless(input, FrameBudget());
    ghost var frames := FramesOf(input, FrameBudget());
    assert frames[..|frames|] == frames;
    err := SendStdoutFrames(link, exec, input);
    assert link.sent[|old(link.sent)|..] == frames;
  }
}
