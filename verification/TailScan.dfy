/** The block-wise backward scan for the last lines of a file (internal/noderun/ops.go). */
module TailScan {
  import opened Utf8
  import opened FileWindow

  const BLOCK := 64 * 1024

  /** The simple scan: byte by byte from the end, where a newline that ends the file is no line
      break. `remaining` counts line breaks still to be passed. */
  function ScanBack(data: Text, i: nat, remaining: int): (r: nat)
    requires i <= |data|
    ensures r <= i
  {
    if i == 0 then 0
    else if data[i - 1] == NEWLINE && i != |data| then
      if remaining == 1 then i else ScanBack(data, i - 1, remaining - 1)
    else ScanBack(data, i - 1, remaining)
  }

  function LastLinesStart(data: Text, lines: int): nat {
    ScanBack(data, |data|, lines)
  }

  /** `size` is the size the file was found to have; its content is read block by block. */
  method TailStart(file: Text, size: int, lines: int) returns (start: nat)
    requires size <= |file|
    ensures start == if size <= 0 then 0 else LastLinesStart(file[..size], lines)
  {
    if size <= 0 {
      return 0;
    }
    ghost var data := file[..size];
    var pos, remaining := size, lines;
    while pos > 0
      invariant 0 <= pos <= size
      invariant ScanBack(data, pos, remaining) == LastLinesStart(data, lines)
    {
      var n := BLOCK;
      if n > pos {
        n := pos;
      }
      pos := pos - n;
      var buf := file[pos..pos + n];
      var i := n - 1;
      while i >= 0
        invariant -1 <= i < n
        invariant ScanBack(data, pos + i + 1, remaining) == LastLinesStart(data, lines)
      {
        var absolute := pos + i;
        assert buf[i] == data[absolute];
        if absolute != size - 1 {
          if buf[i] == NEWLINE {
            remaining := remaining - 1;
            if remaining == 0 {
              return absolute + 1;
            }
          }
        }
        i := i - 1;
      }
    }
    return 0;
  }

  // ----- The scan finds the last lines -------------------------------------------------------------

  function Breaks(data: Text): nat {
    if data == [] then 0 else (if data[0] == NEWLINE then 1 else 0) + Breaks(data[1..])
  }

  lemma {:induction false} BreaksConcat(a: Text, b: Text)
    ensures Breaks(a + b) == Breaks(a) + Breaks(b)
  {
    if a == [] {
      assert a + b == b;
    } else {
      assert (a + b)[1..] == a[1..] + b;
      BreaksConcat(a[1..], b);
    }
  }

  lemma {:induction false} SplitCount(data: Text)
    ensures |Split(data)| == Breaks(data) + 1
  {
    if data != [] {
      SplitCount(data[1..]);
    }
  }

  lemma {:induction false} SplitAtBreak(a: Text, b: Text)
    ensures Split(a + [NEWLINE] + b) == Split(a) + Split(b)
  {
    if a == [] {
      assert a + [NEWLINE] + b == [NEWLINE] + b;
      assert ([NEWLINE] + b)[1..] == b;
    } else {
      assert (a + [NEWLINE] + b)[1..] == a[1..] + [NEWLINE] + b;
      SplitAtBreak(a[1..], b);
    }
  }

  lemma SplitFirst(data: Text)
    requires data != []
    ensures var pieces := Split(data[1..]);
      && pieces != []
      && Split(data) == if data[0] == NEWLINE then [[]] + pieces else [[data[0]] + pieces[0]] + pieces[1..]
  {
  }

  lemma {:induction false} LastPieceEmpty(data: Text)
    requires data != []
    ensures var pieces := Split(data);
      pieces[|pieces| - 1] == [] <==> data[|data| - 1] == NEWLINE
  {
    if |data| == 1 {
      assert data[1..] == [];
      assert Split([]) == [[]];
    } else {
      LastPieceEmpty(data[1..]);
      SplitFirst(data);
      hide Split;
      assert data[|data| - 1] == data[1..][|data| - 2];
    }
  }

  /** A non-empty text has one line more than it has line breaks that do not end it. */
  lemma LineCount(data: Text)
    requires data != []
    ensures |SplitLines(data)| == Breaks(data[..|data| - 1]) + 1
  {
    SplitCount(data);
    LastPieceEmpty(data);
    assert data == data[..|data| - 1] + [data[|data| - 1]];
    BreaksConcat(data[..|data| - 1], [data[|data| - 1]]);
    assert [data[|data| - 1]][1..] == [];
  }

  /** Lines before a line break and lines after it. */
  lemma LinesAtBreak(data: Text, r: nat)
    requires 0 < r < |data| && data[r - 1] == NEWLINE
    ensures SplitLines(data) == Split(data[..r - 1]) + SplitLines(data[r..])
  {
    assert data == data[..r - 1] + [NEWLINE] + data[r..];
    SplitAtBreak(data[..r - 1], data[r..]);
    var first, rest := Split(data[..r - 1]), Split(data[r..]);
    assert (first + rest)[|first| + |rest| - 1] == rest[|rest| - 1];
    assert (first + rest)[..|first| + |rest| - 1] == first + rest[..|rest| - 1];
  }

  lemma BreaksMore(data: Text, r: nat, i: nat)
    requires r < i <= |data|
    ensures Breaks(data[r..i]) == Breaks(data[r..i - 1]) + if data[i - 1] == NEWLINE then 1 else 0
  {
    var one := [data[i - 1]];
    assert one[1..] == [];
    assert data[r..i] == data[r..i - 1] + one;
    BreaksConcat(data[r..i - 1], one);
  }

  lemma NoBreaks(data: Text, i: nat)
    requires i <= |data|
    ensures Breaks(data[i..i]) == 0
  {
  }

  /** Where the scan stops, counted in line breaks. */
  lemma {:induction false} ScanStops(data: Text, i: nat, remaining: int)
    requires i <= |data| && data != [] && remaining >= 1
    ensures var r := ScanBack(data, i, remaining);
      var stop := if i == |data| then |data| - 1 else i;
      && r <= stop
      && (r > 0 ==> data[r - 1] == NEWLINE && Breaks(data[r..stop]) == remaining - 1)
      && (r == 0 ==> Breaks(data[0..stop]) < remaining)
  {
    hide Breaks;
    NoBreaks(data, i);
    if i == |data| {
      ScanStops(data, i - 1, remaining);
    } else if i > 0 && !(data[i - 1] == NEWLINE && remaining == 1) {
      var left := if data[i - 1] == NEWLINE then remaining - 1 else remaining;
      ScanStops(data, i - 1, left);
      BreaksMore(data, ScanBack(data, i - 1, left), i);
    }
  }

  /** The scan returns exactly the start of the last `n` lines: what follows splits into the last
      `n` lines of the file, or into all of them when there are fewer. */
  lemma TailIsTheLastLines(data: Text, n: nat)
    requires n >= 1
    ensures var r := LastLinesStart(data, n);
      var all, last := SplitLines(data), SplitLines(data[r..]);
      && |last| == (if n < |all| then n else |all|)
      && last == all[|all| - |last|..]
  {
    hide Breaks, Split, SplitLines, ScanBack;
    var r := LastLinesStart(data, n);
    if data == [] {
      NoLines();
      assert data[r..] == [];
    } else {
      ScanStops(data, |data|, n);
      var body := data[..|data| - 1];
      assert data[0..|data| - 1] == body;
      if r == 0 {
        assert data[0..] == data;
        LineCount(data);
      } else {
        LinesAtBreak(data, r);
        LineCount(data[r..]);
        assert data[r..][..|data| - r - 1] == data[r..|data| - 1];
        SuffixOfLines(Split(data[..r - 1]), SplitLines(data[r..]));
        SomeLines(data[..r - 1]);
      }
    }
  }

  lemma NoLines()
    ensures SplitLines([]) == []
  {
  }

  lemma SomeLines(data: Text)
    ensures |Split(data)| > 0
  {
  }

  lemma SuffixOfLines(front: seq<Text>, last: seq<Text>)
    ensures (front + last)[|front + last| - |last|..] == last
  {
  }
}
