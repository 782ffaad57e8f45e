/** UTF-8 as byte sequences (section 4 of RFC 3629). */
module Utf8 {

  type byte = b: int | 0 <= b < 256
  type Text = seq<byte>

  /** A byte that can begin a character: anything but a continuation byte. */
  predicate RuneStart(b: byte) {
    b < 0x80 || 0xC0 <= b
  }

  predicate Tail(s: Text, i: nat) {
    i < |s| && 0x80 <= s[i] <= 0xBF
  }

  predicate TailIn(s: Text, lo: byte, hi: byte) {
    1 < |s| && lo <= s[1] <= hi
  }

  /** The length of the well-formed character `s` begins with, or 0 when there is none. */
  function RuneLength(s: Text): nat {
    if s == [] then 0
    else if s[0] < 0x80 then 1
    else if 0xC2 <= s[0] <= 0xDF && Tail(s, 1) then 2
    else if s[0] == 0xE0 && TailIn(s, 0xA0, 0xBF) && Tail(s, 2) then 3
    else if (0xE1 <= s[0] <= 0xEC || s[0] == 0xEE || s[0] == 0xEF) && Tail(s, 1) && Tail(s, 2) then 3
    else if s[0] == 0xED && TailIn(s, 0x80, 0x9F) && Tail(s, 2) then 3
    else if s[0] == 0xF0 && TailIn(s, 0x90, 0xBF) && Tail(s, 2) && Tail(s, 3) then 4
    else if 0xF1 <= s[0] <= 0xF3 && Tail(s, 1) && Tail(s, 2) && Tail(s, 3) then 4
    else if s[0] == 0xF4 && TailIn(s, 0x80, 0x8F) && Tail(s, 2) && Tail(s, 3) then 4
    else 0
  }

  predicate Valid(s: Text)
    decreases |s|
  {
    s == [] || (0 < RuneLength(s) <= |s| && Valid(s[RuneLength(s)..]))
  }

  /** A character's length is decided by its own bytes. */
  lemma RuneLocal(s: Text, n: nat)
    requires n <= |s|
    ensures RuneLength(s) <= 4
    ensures 0 < RuneLength(s) ==> RuneLength(s) <= |s| && RuneStart(s[0])
    ensures 0 < RuneLength(s) ==> forall i :: 0 < i < RuneLength(s) ==> !RuneStart(s[i])
    ensures 0 < RuneLength(s) <= n ==> RuneLength(s[..n]) == RuneLength(s)
    ensures 0 < RuneLength(s[..n]) ==> RuneLength(s) == RuneLength(s[..n])
  {
  }

  lemma {:induction false} ValidConcat(a: Text, b: Text)
    requires Valid(a)
    ensures Valid(a + b) == Valid(b)
    decreases |a|
  {
    if a == [] {
      assert a + b == b;
    } else {
      var n := RuneLength(a);
      RuneLocal(a + b, |a|);
      assert (a + b)[..|a|] == a;
      assert (a + b)[n..] == a[n..] + b;
      ValidConcat(a[n..], b);
    }
  }

  /** `start` begins the character that contains position `p`. */
  ghost predicate Contains(s: Text, start: nat, p: nat) {
    && start <= p < |s| && p - 3 <= start && RuneStart(s[start])
    && forall i :: start < i <= p ==> !RuneStart(s[i])
  }

  lemma ContainsLater(s: Text, n: nat, start: nat, p: nat)
    requires n <= |s| && Contains(s[n..], start, p)
    ensures Contains(s, n + start, n + p)
  {
    assert forall i :: n <= i < |s| ==> s[i] == s[n..][i - n];
  }

  lemma FirstRune(s: Text)
    requires Valid(s) && s != []
    ensures var n := RuneLength(s);
      && 0 < n <= |s| && Valid(s[n..]) && Valid(s[..n])
      && forall p :: 0 <= p < n ==> Contains(s, 0, p)
  {
    var n := RuneLength(s);
    RuneLocal(s, |s|);
    RuneLocal(s, n);
    assert s[..n][n..] == [];
  }

  /** In well-formed text the character that contains a position starts at most 3 bytes before it,
      and the text is well-formed on both sides of that start. */
  lemma {:induction false} NearestStart(s: Text, p: nat) returns (start: nat)
    requires Valid(s) && p < |s|
    ensures Contains(s, start, p)
    ensures Valid(s[..start]) && Valid(s[start..])
    decreases |s|
  {
    FirstRune(s);
    var n := RuneLength(s);
    if p < n {
      start := 0;
      assert s[..0] == [] && s[0..] == s;
    } else {
      start := NearestStart(s[n..], p - n);
      start := n + start;
      ContainsLater(s, n, start - n, p - n);
      JoinAt(s, n, start);
    }
  }

  lemma JoinAt(s: Text, n: nat, start: nat)
    requires n <= start <= |s| && Valid(s[..n]) && Valid(s[n..][..start - n]) && Valid(s[n..][start - n..])
    ensures Valid(s[..start]) && Valid(s[start..])
  {
    assert s[start..] == s[n..][start - n..];
    assert s[..start] == s[..n] + s[n..][..start - n];
    ValidConcat(s[..n], s[n..][..start - n]);
  }
}
