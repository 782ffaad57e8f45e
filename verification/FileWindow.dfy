/** Bounded reads of workspace files (internal/noderun/ops.go): a window read that seeks close to
    the requested offset, against the same selection made on the whole file. */
module FileWindow {
  import opened Prelude
  import opened Utf8

  const MAX_READ_BYTES := 1024 * 1024
  const DEFAULT_READ_BYTES := 64 * 1024
  const NEWLINE: byte := 10

  /** The selector of a read request, after `readTooLarge` has refused negative fields. */
  datatype ReadPayload = ReadPayload(head: nat, tail: nat, offset: nat, limit: nat)

  // ----- Lines -----------------------------------------------------------------------------------

  function Split(raw: Text): (lines: seq<Text>)
    ensures |lines| > 0
  {
    if raw == [] then [[]]
    else if raw[0] == NEWLINE then [[]] + Split(raw[1..])
    else
      var rest := Split(raw[1..]);
      [[raw[0]] + rest[0]] + rest[1..]
  }

  function SplitLines(raw: Text): seq<Text> {
    if raw == [] then []
    else
      var lines := Split(raw);
      if lines[|lines| - 1] == [] then lines[..|lines| - 1] else lines
  }

  function Join(lines: seq<Text>): Text {
    if lines == [] then [] else if |lines| == 1 then lines[0] else lines[0] + [NEWLINE] + Join(lines[1..])
  }

  // ----- Character boundaries --------------------------------------------------------------------

  /** Back to the start of the character that contains `off`; the end when `off` is beyond it. */
  function SnapStart(raw: Text, off: nat): (r: nat)
    ensures r <= |raw|
  {
    if off == 0 then 0 else if off >= |raw| then |raw| else StepBack(raw, off)
  }

  function StepBack(raw: Text, off: nat): (r: nat)
    requires off < |raw|
    ensures r <= off
  {
    if off == 0 || RuneStart(raw[off]) then off else StepBack(raw, off - 1)
  }

  method SnapUTF8Start(raw: Text, offset: nat) returns (off: nat)
    ensures off == SnapStart(raw, offset)
  {
    if offset <= 0 {
      return 0;
    }
    if offset >= |raw| {
      return |raw|;
    }
    off := offset;
    while off > 0 && !RuneStart(raw[off])
      invariant off <= offset
      invariant StepBack(raw, off) == StepBack(raw, offset)
    {
      off := off - 1;
    }
  }

  function Clamp(b: Text): Text {
    if b == [] || Valid(b) then b else Clamp(b[..|b| - 1])
  }

  method ClampUTF8Prefix(b: Text) returns (out: Text)
    ensures out == Clamp(b)
  {
    out := b;
    while |out| > 0 && !Valid(out)
      invariant Clamp(out) == Clamp(b)
    {
      out := out[..|out| - 1];
    }
  }

  /** Clamping yields the longest well-formed prefix. */
  lemma {:induction false} ClampIsLongest(b: Text, n: nat)
    requires n <= |b| && Valid(b[..n])
    ensures n <= |Clamp(b)| <= |b| && Clamp(b) == b[..|Clamp(b)|] && Valid(Clamp(b))
    decreases |b|
  {
    if b != [] && !Valid(b) {
      var less := b[..|b| - 1];
      assert n != |b| by { assert b[..|b|] == b; }
      assert less[..n] == b[..n];
      ClampIsLongest(less, n);
    } else {
      assert b[..|b|] == b;
    }
  }

  /** Cutting well-formed text anywhere loses at most the 3 bytes of a split character. */
  lemma ClampLosesAtMostThree(s: Text, cut: nat)
    requires Valid(s) && cut <= |s|
    ensures cut - 3 <= |Clamp(s[..cut])| <= cut
    ensures cut == |s| ==> Clamp(s[..cut]) == s
  {
    if cut == |s| {
      assert s[..cut] == s;
    } else {
      var start := NearestStart(s, cut);
      assert s[..cut][..start] == s[..start];
      ClampIsLongest(s[..cut], start);
    }
  }

  // ----- The selection ---------------------------------------------------------------------------

  function Slice(raw: Text, off: nat, limit: nat): Text
    requires off <= |raw|
  {
    raw[off..if limit > 0 && off + limit < |raw| then off + limit else |raw|]
  }

  /** The bytes a selector picks, before the budget. None: the offset is beyond the end. */
  function Select(raw: Text, p: ReadPayload): Option<Text> {
    if p.head > 0 then
      var lines := SplitLines(raw);
      Some(if p.head < |lines| then Join(lines[..p.head]) else raw)
    else if p.tail > 0 then
      var lines := SplitLines(raw);
      Some(if p.tail < |lines| then Join(lines[|lines| - p.tail..]) else raw)
    else if p.offset > 0 || p.limit > 0 then
      var off := SnapStart(raw, p.offset);
      if off >= |raw| then None
      else Some(Slice(raw, off, p.limit))
    else Some(raw)
  }

  /** The budget and the last character boundary: what is served, and whether bytes were cut. */
  function Cut(raw: Text, limit: nat): (Text, bool) {
    var kept := if |raw| > limit then raw[..limit] else raw;
    (Clamp(kept), |raw| > limit || |Clamp(kept)| < |kept|)
  }

  function SliceRead(raw: Text, p: ReadPayload, limit: nat): (Text, bool) {
    match Select(raw, p)
    case None => ([], false)
    case Some(chosen) => Cut(chosen, limit)
  }

  function WindowBudget(p: ReadPayload): nat {
    if p.limit == 0 || p.limit > MAX_READ_BYTES then MAX_READ_BYTES else p.limit
  }

  predicate ByOffset(p: ReadPayload) {
    p.head == 0 && p.tail == 0 && (p.offset != 0 || p.limit != 0)
  }

  /** Reading `count` bytes from `start`, as a bounded reader on the open file does. */
  function ReadAt(file: Text, start: nat, count: nat): Text {
    if start >= |file| then [] else file[start..Min(start + count, |file|)]
  }

  /** The offset branch: seek 4 bytes early, read one byte beyond the budget, select there. */
  function OffsetWindow(file: Text, p: ReadPayload): (Text, bool) {
    var limit := WindowBudget(p);
    var start := WindowStart(p.offset);
    var data := ReadAt(file, start, limit + (p.offset - start) + 1);
    SliceRead(data, ReadPayload(0, 0, p.offset - start, p.limit), limit)
  }

  method SliceBytes(data: Text, p: ReadPayload, limit: nat) returns (out: Text, truncated: bool)
    ensures (out, truncated) == SliceRead(data, p, limit)
  {
    var raw := data;
    if p.head > 0 {
      var lines := SplitLines(raw);
      if p.head < |lines| {
        raw := Join(lines[..p.head]);
      }
    } else if p.tail > 0 {
      var lines := SplitLines(raw);
      if p.tail < |lines| {
        raw := Join(lines[|lines| - p.tail..]);
      }
    } else if p.offset > 0 || p.limit > 0 {
      var off := SnapUTF8Start(raw, p.offset);
      if off >= |raw| {
        return [], false;
      }
      var end := |raw|;
      if p.limit > 0 && off + p.limit < end {
        end := off + p.limit;
      }
      raw := raw[off..end];
    }
    var cut := false;
    if |raw| > limit {
      raw, cut := raw[..limit], true;
    }
    out := ClampUTF8Prefix(raw);
    return out, cut || |out| < |raw|;
  }

  /** The offset branch of the windowed read; on well-formed files it equals reading the whole file. */
  method ReadOffsetWindow(file: Text, p: ReadPayload) returns (out: Text, truncated: bool)
    requires ByOffset(p)
    ensures (out, truncated) == OffsetWindow(file, p)
    ensures Valid(file) ==> (out, truncated) == SliceRead(file, p, WindowBudget(p))
  {
    hide SliceRead, Valid;
    var limit := p.limit;
    if limit <= 0 || limit > MAX_READ_BYTES {
      limit := MAX_READ_BYTES;
    }
    var start: int := p.offset - 4;
    if start < 0 {
      start := 0;
    }
    var data := ReadAt(file, start, limit + (p.offset - start) + 1);
    out, truncated := SliceBytes(data, ReadPayload(0, 0, p.offset - start, p.limit), limit);
    if Valid(file) {
      WindowEqualsWholeFile(file, p);
    }
  }

  lemma {:induction false} StepBackStops(raw: Text, off: nat, start: nat)
    requires start <= off < |raw| && RuneStart(raw[start])
    requires forall i :: start < i <= off ==> !RuneStart(raw[i])
    ensures StepBack(raw, off) == start
  {
    if off != start {
      StepBackStops(raw, off - 1, start);
    }
  }

  /** The window and the file snap to the same character when the start is within the 4 bytes. */
  lemma SnapInWindow(file: Text, start: nat, end: nat, off: nat, snapped: nat)
    requires start <= snapped <= off < end <= |file| && RuneStart(file[snapped])
    requires forall i :: snapped < i <= off ==> !RuneStart(file[i])
    ensures SnapStart(file, off) == snapped
    ensures start + SnapStart(file[start..end], off - start) == snapped
  {
    if off > 0 {
      StepBackStops(file, off, snapped);
    }
    var window := file[start..end];
    if off > start {
      assert window[snapped - start] == file[snapped];
      forall i | snapped - start < i <= off - start ensures !RuneStart(window[i]) {
        assert window[i] == file[start + i];
      }
      StepBackStops(window, off - start, snapped - start);
    }
  }

  lemma OffsetSlice(raw: Text, p: ReadPayload, limit: nat)
    requires ByOffset(p)
    ensures SliceRead(raw, p, limit) ==
      if SnapStart(raw, p.offset) >= |raw| then ([], false)
      else Cut(Slice(raw, SnapStart(raw, p.offset), p.limit), limit)
  {
  }

  /** On every well-formed file the windowed read serves the same bytes and the same truncation
      flag as the same selection on the whole file, for every offset and limit. */
  lemma WindowEqualsWholeFile(file: Text, p: ReadPayload)
    requires Valid(file) && ByOffset(p)
    ensures OffsetWindow(file, p) == SliceRead(file, p, WindowBudget(p))
  {
    if p.offset < |file| {
      var snapped := NearestStart(file, p.offset);
      InsideTheFile(file, p, snapped);
    } else {
      BeyondTheFile(file, p);
    }
  }

  lemma BeyondTheFile(file: Text, p: ReadPayload)
    requires ByOffset(p) && p.offset >= |file|
    ensures OffsetWindow(file, p) == SliceRead(file, p, WindowBudget(p)) == ([], false)
  {
    var limit := WindowBudget(p);
    var start := WindowStart(p.offset);
    var data := ReadAt(file, start, limit + (p.offset - start) + 1);
    OffsetSlice(file, p, limit);
    OffsetSlice(data, ReadPayload(0, 0, p.offset - start, p.limit), limit);
    hide SliceRead;
    assert |data| <= p.offset - start;
  }

  lemma InsideTheFile(file: Text, p: ReadPayload, snapped: nat)
    requires ByOffset(p) && p.offset < |file| && Contains(file, snapped, p.offset)
    ensures OffsetWindow(file, p) == SliceRead(file, p, WindowBudget(p))
  {
    var start := WindowStart(p.offset);
    NearSelection(file, p, snapped, ReadPayload(0, 0, p.offset - start, p.limit), WindowBudget(p),
                  ReadAt(file, start, WindowBudget(p) + (p.offset - start) + 1));
    hide SliceRead, ReadAt;
  }

  lemma NearSelection(file: Text, p: ReadPayload, snapped: nat, near: ReadPayload, limit: nat, data: Text)
    requires ByOffset(p) && ByOffset(near) && p.offset < |file| && Contains(file, snapped, p.offset)
    requires limit == WindowBudget(p) && near.offset == p.offset - WindowStart(p.offset) && near.limit == p.limit
    requires data == ReadAt(file, WindowStart(p.offset), limit + near.offset + 1)
    ensures SliceRead(data, near, limit) == SliceRead(file, p, limit)
  {
    hide SliceRead, Select, Cut, Slice, SnapStart, ReadAt, Contains;
    SameSelection(file, p.offset, snapped, p.limit, limit);
    OffsetSlice(file, p, limit);
    OffsetSlice(data, near, limit);
  }

  function WindowStart(offset: nat): (start: nat)
    ensures start <= offset
  {
    if offset < 4 then 0 else offset - 4
  }

  lemma SameSelection(file: Text, off: nat, snapped: nat, asked: nat, limit: nat)
    requires off < |file| && Contains(file, snapped, off)
    requires limit == if asked == 0 || asked > MAX_READ_BYTES then MAX_READ_BYTES else asked
    ensures var start := WindowStart(off);
      var data := ReadAt(file, start, limit + (off - start) + 1);
      && start + SnapStart(data, off - start) == SnapStart(file, off) == snapped < start + |data| <= |file|
      && Cut(Slice(data, snapped - start, asked), limit) == Cut(Slice(file, snapped, asked), limit)
  {
    var start := WindowStart(off);
    var end := Min(start + (limit + (off - start) + 1), |file|);
    SnapInWindow(file, start, end, off, snapped);
    SameCut(file, start, end, snapped, asked, limit);
  }

  lemma SliceOfSlice(s: Text, a: nat, b: nat, c: nat, d: nat)
    requires a <= b <= |s| && c <= d <= b - a
    ensures s[a..b][c..d] == s[a + c..a + d]
  {
    var x, y := s[a..b], s[a..b][c..d];
    assert forall i :: 0 <= i < |y| ==> y[i] == x[c + i];
    assert forall i :: 0 <= i < |x| ==> x[i] == s[a + i];
    assert y == s[a + c..a + d];
  }

  /** Stopping the window one byte after the budget changes nothing the cut can see. */
  lemma SameCut(file: Text, start: nat, end: nat, from: nat, asked: nat, limit: nat)
    requires start <= from < end <= |file| && (from + limit < end || end == |file|)
    requires limit == if asked == 0 || asked > MAX_READ_BYTES then MAX_READ_BYTES else asked
    ensures Cut(Slice(file[start..end], from - start, asked), limit) == Cut(Slice(file, from, asked), limit)
  {
    var near := Slice(file[start..end], from - start, asked);
    var whole := Slice(file, from, asked);
    var stop := if asked > 0 && from + asked < end then from + asked else end;
    SliceOfSlice(file, start, end, from - start, stop - start);
    assert near == file[from..stop];
    hide Valid, Clamp;
    if |whole| > limit {
      SliceOfSlice(file, from, stop, 0, limit);
      SliceOfSlice(file, from, from + |whole|, 0, limit);
      assert near[..limit] == near[0..limit] && whole[..limit] == whole[0..limit];
    }
  }

  // ----- What a caller is served -------------------------------------------------------------------

  function ServedBudget(p: ReadPayload): nat {
    if p.limit == 0 then DEFAULT_READ_BYTES else if p.limit > MAX_READ_BYTES then MAX_READ_BYTES else p.limit
  }

  /** The offset branch end to end: the window, then the final budget on what it selected. */
  function Served(file: Text, p: ReadPayload): (Text, bool) {
    var (raw, early) := OffsetWindow(file, p);
    var (out, late) := SliceRead(raw, ReadPayload(0, 0, 0, 0), ServedBudget(p));
    (out, late || early)
  }

  lemma CutOfValid(s: Text, limit: nat)
    requires Valid(s)
    ensures var (out, cut) := Cut(s, limit);
      && Valid(out) && |out| <= limit && out <= s
      && (cut <==> |s| > limit) && (!cut ==> out == s) && (cut ==> limit - 3 <= |out|)
  {
    var kept := if |s| > limit then s[..limit] else s;
    assert |s| <= limit ==> s[..|s|] == s;
    ClampLosesAtMostThree(s, |kept|);
    assert Valid(s[..0]) by { assert s[..0] == []; }
    assert kept[..0] == s[..0];
    ClampIsLongest(kept, 0);
  }

  /** Cutting twice, generously and then tightly, is cutting once. */
  lemma CutTwice(s: Text, wide: nat, narrow: nat)
    requires Valid(s) && narrow + 3 < wide
    ensures var (raw, early) := Cut(s, wide);
      var (out, late) := Cut(raw, narrow);
      (out, late || early) == Cut(s, narrow)
  {
    CutOfValid(s, wide);
    CutOfValid(Cut(s, wide).0, narrow);
    if |s| > wide {
      assert Cut(s, wide).0[..narrow] == s[..narrow];
    }
  }

  /** Cutting again with the same budget changes nothing. */
  lemma CutAgain(s: Text, limit: nat)
    ensures var (raw, early) := Cut(s, limit);
      var (out, late) := Cut(raw, limit);
      (out, late || early) == (raw, early)
  {
    var kept := if |s| > limit then s[..limit] else s;
    assert Valid(kept[..0]) by { assert kept[..0] == []; }
    ClampIsLongest(kept, 0);
  }

  lemma SelectedIsValid(file: Text, p: ReadPayload)
    requires Valid(file) && p.offset < |file|
    ensures SnapStart(file, p.offset) < |file| && Valid(file[SnapStart(file, p.offset)..])
  {
    var snapped := NearestStart(file, p.offset);
    if p.offset > 0 {
      StepBackStops(file, p.offset, snapped);
    }
  }

  /** What the caller of an offset read receives is the selection of the whole file, cut once to
      the budget, with the right truncation flag. */
  lemma ServedEqualsWholeFile(file: Text, p: ReadPayload)
    requires Valid(file) && ByOffset(p)
    ensures Served(file, p) == SliceRead(file, p, ServedBudget(p))
  {
    WindowEqualsWholeFile(file, p);
    OffsetSlice(file, p, WindowBudget(p));
    OffsetSlice(file, p, ServedBudget(p));
    if p.offset < |file| {
      SelectedIsValid(file, p);
      var chosen := Slice(file, SnapStart(file, p.offset), p.limit);
      if p.limit == 0 {
        assert chosen == file[SnapStart(file, p.offset)..];
        CutTwice(chosen, MAX_READ_BYTES, DEFAULT_READ_BYTES);
      } else {
        CutAgain(chosen, WindowBudget(p));
      }
    }
  }

  /** And it is a well-formed piece of the file that begins with the character containing the
      offset; a read without a limit is cut exactly when more than the budget remains. */
  lemma ServedIsAPieceOfTheFile(file: Text, p: ReadPayload)
    requires Valid(file) && ByOffset(p) && p.offset < |file|
    ensures var (out, truncated) := Served(file, p);
      var from := SnapStart(file, p.offset);
      && Valid(out) && out <= file[from..] && |out| <= ServedBudget(p)
      && (p.limit == 0 ==> (truncated <==> |file| - from > DEFAULT_READ_BYTES))
      && (p.limit == 0 && !truncated ==> out == file[from..])
  {
    ServedEqualsWholeFile(file, p);
    SelectedIsValid(file, p);
    OffsetSlice(file, p, ServedBudget(p));
    SlicedPiece(file, SnapStart(file, p.offset), p.limit, ServedBudget(p));
    hide Served, SliceRead, Cut, SnapStart, Valid;
  }

  lemma SlicedPiece(file: Text, from: nat, asked: nat, budget: nat)
    requires from < |file| && Valid(file[from..])
    ensures var (out, truncated) := Cut(Slice(file, from, asked), budget);
      && Valid(out) && out <= file[from..] && |out| <= budget
      && (asked == 0 ==> (truncated <==> |file| - from > budget))
      && (asked == 0 && !truncated ==> out == file[from..])
  {
    var chosen := Slice(file, from, asked);
    assert chosen <= file[from..];
    CutPrefix(chosen, budget);
    if asked == 0 {
      assert chosen == file[from..];
      CutOfValid(chosen, budget);
    }
  }

  lemma CutPrefix(s: Text, limit: nat)
    ensures var (out, _) := Cut(s, limit); Valid(out) && out <= s && |out| <= limit
  {
    var kept := if |s| > limit then s[..limit] else s;
    assert Valid(kept[..0]) by { assert kept[..0] == []; }
    ClampIsLongest(kept, 0);
  }
}
