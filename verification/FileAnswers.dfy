/** What a reader of a file is given, said of the file's own bytes. */
module FileAnswers {
  import opened Prelude
  import opened Utf8
  import opened FileWindow
  import opened TailScan

  /** The longest well-formed beginning of `whole` within a budget. */
  predicate LongestPiece(out: Text, whole: Text, most: nat) {
    && Valid(out) && out <= whole && |out| <= most
    && forall n | |out| < n <= |whole| && n <= most :: !Valid(whole[..n])
  }

  /** The budget leaves the longest well-formed piece, and says so exactly when bytes are missing. */
  lemma CutExactly(raw: Text, limit: nat)
    ensures var (out, truncated) := Cut(raw, limit);
      LongestPiece(out, raw, limit) && (truncated <==> |out| < |raw|)
  {
    var (out, _) := Cut(raw, limit);
    var kept := if |raw| > limit then raw[..limit] else raw;
    assert |raw| <= limit ==> raw[..|raw|] == raw;
    assert Valid(kept[..0]) by { assert kept[..0] == []; }
    ClampIsLongest(kept, 0);
    hide Clamp, Valid;
    forall n | |out| < n <= |raw| && n <= limit ensures !Valid(raw[..n]) {
      assert kept[..n] == raw[..n];
      if Valid(kept[..n]) {
        ClampIsLongest(kept, n);
      }
    }
  }

  // ----- By offset -------------------------------------------------------------------------------------

  /** A read at an offset inside a well-formed file, where `from` is the start of the character that contains the
      offset: the answer is the longest well-formed piece of the file from there within the limit asked for, which
      is at most 1 MiB and 64 KiB when none is given; it is marked exactly when it is shorter than what was asked for
      and is there. At most the 3 bytes of a split character are missing from the budget. */
  lemma {:induction false} ServesExactly(file: Text, p: ReadPayload, from: nat)
    requires Valid(file) && ByOffset(p) && Contains(file, from, p.offset)
    ensures var (out, truncated) := Served(file, p);
      var rest := file[from..];
      var most := if p.limit == 0 then 65536 else if p.limit < 1048576 then p.limit else 1048576;
      && LongestPiece(out, rest, most)
      && (truncated <==> |out| < if 0 < p.limit < |rest| then p.limit else |rest|)
      && (|rest| <= most ==> out == rest) && (most < |rest| ==> most - 3 <= |out|)
  {
    var rest := file[from..];
    var budget := ServedBudget(p);
    ServedEqualsWholeFile(file, p);
    OffsetSlice(file, p, budget);
    SnapsTo(file, p.offset, from);
    SelectedIsValid(file, p);
    hide Served, SliceRead, SnapStart, Valid, Cut, Contains;
    SlicesExactly(file, from, p.limit, budget);
    NearlyAll(Cut(Slice(file, from, p.limit), budget).0, rest, budget);
    hide LongestPiece, Slice;
  }

  lemma SlicesExactly(file: Text, from: nat, asked: nat, budget: nat)
    requires from < |file| && (asked == 0 || budget <= asked)
    ensures var (out, truncated) := Cut(Slice(file, from, asked), budget);
      var rest := file[from..];
      LongestPiece(out, rest, budget) && (truncated <==> |out| < if 0 < asked < |rest| then asked else |rest|)
  {
    hide Valid, Clamp;
    var chosen, rest := Slice(file, from, asked), file[from..];
    assert chosen == rest[..|chosen|];
    assert chosen == rest || |chosen| == asked;
    CutExactly(chosen, budget);
    PieceOfPiece(Cut(chosen, budget).0, chosen, rest, budget);
  }

  lemma SnapsTo(file: Text, off: nat, from: nat)
    requires Contains(file, from, off)
    ensures SnapStart(file, off) == from
  {
    if off > 0 {
      StepBackStops(file, off, from);
    }
  }

  /** A selection that is cut off at the limit has the same pieces as the whole. */
  lemma PieceOfPiece(out: Text, chosen: Text, rest: Text, budget: nat)
    requires LongestPiece(out, chosen, budget) && chosen <= rest && (budget <= |chosen| || chosen == rest)
    ensures LongestPiece(out, rest, budget)
  {
    hide Valid;
    forall n | |out| < n <= |rest| && n <= budget ensures !Valid(rest[..n]) {
      assert chosen[..n] == rest[..n];
    }
  }

  lemma NearlyAll(out: Text, rest: Text, budget: nat)
    requires LongestPiece(out, rest, budget) && Valid(rest)
    ensures |rest| <= budget ==> out == rest
    ensures budget < |rest| ==> budget - 3 <= |out|
  {
    if |rest| <= budget {
      assert rest[..|rest|] == rest;
    } else {
      var start := NearestStart(rest, budget);
      assert Valid(rest[..start]);
    }
  }

  // ----- By lines --------------------------------------------------------------------------------------

  lemma {:induction false} JoinConcat(a: seq<Text>, b: seq<Text>)
    requires a != [] && b != []
    ensures Join(a + b) == Join(a) + [NEWLINE] + Join(b)
  {
    var all := a + b;
    if |a| == 1 {
      assert all[1..] == b;
    } else {
      assert all[1..] == a[1..] + b;
      JoinConcat(a[1..], b);
    }
  }

  lemma JoinOne(line: Text)
    ensures Join([line]) == line
  {
  }

  /** Splitting loses nothing. */
  lemma {:induction false} JoinSplit(raw: Text)
    ensures Join(Split(raw)) == raw
  {
    if raw != [] {
      JoinSplit(raw[1..]);
      TailScan.SplitFirst(raw);
      var rest := Split(raw[1..]);
      assert raw == [raw[0]] + raw[1..];
      if raw[0] == NEWLINE {
        JoinConcat([[]], rest);
        JoinOne([]);
      } else if |rest| > 1 {
        assert rest == [rest[0]] + rest[1..];
        JoinConcat([rest[0]], rest[1..]);
        JoinConcat([[raw[0]] + rest[0]], rest[1..]);
        JoinOne(rest[0]);
        JoinOne([raw[0]] + rest[0]);
      } else {
        assert rest == [rest[0]];
        JoinOne([raw[0]] + rest[0]);
      }
    }
  }

  /** Without a newline that ends it. */
  function Unterminated(raw: Text): Text {
    if raw != [] && raw[|raw| - 1] == NEWLINE then raw[..|raw| - 1] else raw
  }

  lemma {:induction false} JoinLines(raw: Text)
    ensures Join(SplitLines(raw)) == Unterminated(raw)
  {
    JoinSplit(raw);
    if raw != [] {
      LastPieceEmpty(raw);
      SplitCount(raw);
      hide Breaks, Split;
      var pieces := Split(raw);
      var n := |pieces| - 1;
      if pieces[n] == [] && n > 0 {
        assert pieces == pieces[..n] + [[]];
        JoinConcat(pieces[..n], [[]]);
        JoinOne([]);
      } else if n == 0 {
        assert pieces == [pieces[0]];
        JoinOne(pieces[0]);
      }
    }
  }

  /** Where the n-th line ends. */
  lemma {:induction false} NthBreak(raw: Text, n: nat) returns (e: nat)
    requires 1 <= n <= Breaks(raw)
    ensures e < |raw| && raw[e] == NEWLINE && Breaks(raw[..e]) == n - 1
  {
    if raw[0] == NEWLINE && n == 1 {
      e := 0;
    } else {
      var m := if raw[0] == NEWLINE then n - 1 else n;
      var d := NthBreak(raw[1..], m);
      e := d + 1;
      assert raw[..e][1..] == raw[1..][..d];
    }
  }

  /** How many lines there are; a newline that ends the text begins none. */
  function Lines(raw: Text): nat {
    if raw == [] then 0 else Breaks(raw[..|raw| - 1]) + 1
  }

  lemma LinesExactly(raw: Text)
    ensures |SplitLines(raw)| == Lines(raw)
  {
    if raw != [] {
      LineCount(raw);
    }
  }

  /** The first `n` of more lines. */
  lemma {:induction false} FirstLines(raw: Text, n: nat) returns (e: nat)
    requires 0 < n < Lines(raw)
    ensures e < |raw| && raw[e] == NEWLINE && Breaks(raw[..e]) == n - 1
    ensures n <= |SplitLines(raw)| && Join(SplitLines(raw)[..n]) == raw[..e]
  {
    LinesExactly(raw);
    var body := raw[..|raw| - 1];
    e := NthBreak(body, n);
    assert body[..e] == raw[..e];
    assert raw == raw[..e] + [NEWLINE] + raw[e + 1..];
    hide Breaks, Split, Join;
    SplitAtBreak(raw[..e], raw[e + 1..]);
    SplitCount(raw[..e]);
    assert SplitLines(raw)[..n] == Split(raw[..e]);
    JoinSplit(raw[..e]);
  }

  /** The last `n` of more lines. */
  lemma {:induction false} LastLines(raw: Text, n: nat) returns (s: nat)
    requires 0 < n < Lines(raw)
    ensures 0 < s < |raw| && raw[s - 1] == NEWLINE && Breaks(raw[s..|raw| - 1]) == n - 1
    ensures n <= |SplitLines(raw)| && Join(SplitLines(raw)[|SplitLines(raw)| - n..]) == Unterminated(raw[s..])
  {
    hide Breaks, Split, Join, SplitLines, ScanBack;
    LinesExactly(raw);
    s := LastLinesStart(raw, n);
    ScanStops(raw, |raw|, n);
    assert raw[0..|raw| - 1] == raw[..|raw| - 1];
    TailIsTheLastLines(raw, n);
    JoinLines(raw[s..]);
  }

  lemma LinesSelect(raw: Text, n: nat, limit: nat)
    requires n > 0
    ensures var lines := SplitLines(raw);
      && SliceRead(raw, ReadPayload(n, 0, 0, 0), limit) == Cut(if n < |lines| then Join(lines[..n]) else raw, limit)
      && SliceRead(raw, ReadPayload(0, n, 0, 0), limit) == Cut(if n < |lines| then Join(lines[|lines| - n..]) else raw, limit)
  {
    hide Split, SplitLines, Join, Cut;
  }

  /** The first `n` lines are the text up to the newline that ends the n-th, or all of it when there are no more than
      `n`; then the budget applies. */
  lemma {:induction false} HeadServes(raw: Text, n: nat, limit: nat) returns (e: nat)
    requires n > 0
    ensures var (out, truncated) := SliceRead(raw, ReadPayload(n, 0, 0, 0), limit);
      e <= |raw| && LongestPiece(out, raw[..e], limit) && (truncated <==> |out| < e)
    ensures if Lines(raw) <= n then e == |raw| else e < |raw| && raw[e] == NEWLINE && Breaks(raw[..e]) == n - 1
  {
    LinesExactly(raw);
    LinesSelect(raw, n, limit);
    hide Lines, SplitLines, Join, SliceRead, Cut, Breaks, LongestPiece;
    if Lines(raw) <= n {
      e := |raw|;
      assert raw[..e] == raw;
    } else {
      e := FirstLines(raw, n);
    }
    CutExactly(raw[..e], limit);
  }

  /** The last `n` lines are the text from the start of the n-th line from the end, without a newline that ends it, or
      all of it when there are no more than `n`; then the budget applies. */
  lemma {:induction false} TailServes(raw: Text, n: nat, limit: nat) returns (s: nat)
    requires n > 0
    ensures s <= |raw|
    ensures var (out, truncated) := SliceRead(raw, ReadPayload(0, n, 0, 0), limit);
      var last := if s == 0 then raw else Unterminated(raw[s..]);
      LongestPiece(out, last, limit) && (truncated <==> |out| < |last|)
    ensures if Lines(raw) <= n then s == 0
            else 0 < s < |raw| && raw[s - 1] == NEWLINE && Breaks(raw[s..|raw| - 1]) == n - 1
  {
    LinesExactly(raw);
    LinesSelect(raw, n, limit);
    hide Lines, SplitLines, Join, SliceRead, Cut, Breaks, LongestPiece, Unterminated;
    if Lines(raw) <= n {
      s := 0;
      CutExactly(raw, limit);
    } else {
      s := LastLines(raw, n);
      CutExactly(Unterminated(raw[s..]), limit);
    }
  }

  /** A read without a selector serves the text within the budget. */
  lemma PlainServes(raw: Text, limit: nat)
    ensures var (out, truncated) := SliceRead(raw, ReadPayload(0, 0, 0, 0), limit);
      LongestPiece(out, raw, limit) && (truncated <==> |out| < |raw|)
  {
    CutExactly(raw, limit);
  }
}
