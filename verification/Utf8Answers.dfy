/** The decoder against the encoding of section 3 of RFC 3629. */
module Utf8Answers {
  import opened Utf8

  /** A Unicode scalar value: no surrogate. */
  predicate Scalar(code: int) {
    0 <= code < 0xD800 || 0xE000 <= code <= 0x10FFFF
  }

  function Encode(code: int): (bytes: Text)
    requires Scalar(code)
  {
    if code < 0x80 then [code]
    else if code < 0x800 then [0xC0 + code / 64, 0x80 + code % 64]
    else if code < 0x10000 then [0xE0 + code / 4096, 0x80 + code / 64 % 64, 0x80 + code % 64]
    else [0xF0 + code / 262144, 0x80 + code / 4096 % 64, 0x80 + code / 64 % 64, 0x80 + code % 64]
  }

  function EncodeAll(codes: seq<int>): Text
    requires forall c <- codes :: Scalar(c)
  {
    if codes == [] then [] else Encode(codes[0]) + EncodeAll(codes[1..])
  }

  /** What a byte holds above a mark. */
  function Above(s: Text, i: nat, mark: int): int
    requires i < |s|
  {
    s[i] as int - mark
  }

  /** The scalar value the text begins with. */
  function First(s: Text): int
    requires 0 < RuneLength(s) <= |s|
  {
    var n := RuneLength(s);
    if n == 1 then Above(s, 0, 0)
    else if n == 2 then Above(s, 0, 0xC0) * 64 + Above(s, 1, 0x80)
    else if n == 3 then Above(s, 0, 0xE0) * 4096 + Above(s, 1, 0x80) * 64 + Above(s, 2, 0x80)
    else if n == 4 then
      Above(s, 0, 0xF0) * 262144 + Above(s, 1, 0x80) * 4096 + Above(s, 2, 0x80) * 64 + Above(s, 3, 0x80)
    else 0
  }

  lemma FirstIsEncoded(s: Text)
    requires 0 < RuneLength(s) <= |s|
    ensures Scalar(First(s)) && Encode(First(s)) == s[..RuneLength(s)]
  {
    RuneLocal(s, |s|);
    if RuneLength(s) <= 2 {
      ShortFirst(s);
    } else if RuneLength(s) == 3 {
      ThirdFirst(s);
    } else {
      FourthFirst(s);
    }
    hide First, Encode, RuneLength;
  }

  lemma ShortFirst(s: Text)
    requires 0 < RuneLength(s) <= |s| && RuneLength(s) <= 2
    ensures Scalar(First(s)) && Encode(First(s)) == s[..RuneLength(s)]
  {
  }

  lemma ThirdFirst(s: Text)
    requires RuneLength(s) == 3 <= |s|
    ensures Scalar(First(s)) && Encode(First(s)) == s[..3]
  {
    Digits(Above(s, 0, 0xE0), Above(s, 1, 0x80), Above(s, 2, 0x80));
    assert 0x800 <= First(s) < 0x10000;
  }

  lemma FourthFirst(s: Text)
    requires RuneLength(s) == 4 <= |s|
    ensures Scalar(First(s)) && Encode(First(s)) == s[..4]
  {
    var a, b := Above(s, 0, 0xF0), Above(s, 1, 0x80);
    Digits(a * 64 + b, Above(s, 2, 0x80), Above(s, 3, 0x80));
    assert First(s) / 4096 == a * 64 + b;
    assert First(s) / 262144 == (First(s) / 4096) / 64 == a;
    assert 0x10000 <= First(s) <= 0x10FFFF;
  }

  /** Three digits to the base of 64. */
  lemma Digits(a: int, b: int, c: int)
    requires 0 <= a && 0 <= b < 64 && 0 <= c < 64
    ensures var code := a * 4096 + b * 64 + c; code / 4096 == a && code / 64 % 64 == b && code % 64 == c
  {
    var code := a * 4096 + b * 64 + c;
    assert code / 64 == a * 64 + b;
  }

  lemma EncodedIsRune(code: int, rest: Text)
    requires Scalar(code)
    ensures RuneLength(Encode(code) + rest) == |Encode(code)| > 0
  {
    if code < 0x800 {
      ShortRune(code, rest);
    } else if code < 0x10000 {
      ThirdRune(code, rest);
    } else {
      FourthRune(code, rest);
    }
    hide Encode, RuneLength;
  }

  lemma ShortRune(code: int, rest: Text)
    requires 0 <= code < 0x800
    ensures RuneLength(Encode(code) + rest) == |Encode(code)| > 0
  {
  }

  lemma ThirdRune(code: int, rest: Text)
    requires Scalar(code) && 0x800 <= code < 0x10000
    ensures RuneLength(Encode(code) + rest) == |Encode(code)| > 0
  {
    var s := Encode(code) + rest;
    assert s[0] == 0xE0 + code / 4096 && s[1] == 0x80 + code / 64 % 64 && s[2] == 0x80 + code % 64;
    assert s[0] == 0xE0 ==> code / 64 % 64 >= 0x20;
    assert s[0] == 0xED ==> code / 64 % 64 < 0x20;
    hide Encode;
  }

  lemma FourthRune(code: int, rest: Text)
    requires 0x10000 <= code <= 0x10FFFF
    ensures RuneLength(Encode(code) + rest) == |Encode(code)| > 0
  {
    var s := Encode(code) + rest;
    assert s[0] == 0xF0 + code / 262144 && s[1] == 0x80 + code / 4096 % 64;
    assert s[2] == 0x80 + code / 64 % 64 && s[3] == 0x80 + code % 64;
    assert s[0] == 0xF0 ==> code / 4096 % 64 >= 0x10;
    assert s[0] == 0xF4 ==> code / 4096 % 64 < 0x10;
    hide Encode;
  }

  /** A text is accepted exactly when it is the encoding of scalar values. */
  lemma {:induction false} ValidExactly(s: Text)
    ensures Valid(s) <==> exists codes: seq<int> :: (forall c <- codes :: Scalar(c)) && EncodeAll(codes) == s
  {
    if Valid(s) {
      var codes := Decoded(s);
    }
    if codes: seq<int> :| (forall c <- codes :: Scalar(c)) && EncodeAll(codes) == s {
      EncodedIsValid(codes);
    }
  }

  lemma {:induction false} Decoded(s: Text) returns (codes: seq<int>)
    requires Valid(s)
    ensures (forall c <- codes :: Scalar(c)) && EncodeAll(codes) == s
    decreases |s|
  {
    if s == [] {
      codes := [];
    } else {
      FirstRune(s);
      hide Valid, RuneLength, Encode, First, EncodeAll, Scalar, Contains;
      var rest := Decoded(s[RuneLength(s)..]);
      codes := [First(s)] + rest;
      DecodedMore(s, rest);
    }
  }

  lemma DecodedMore(s: Text, rest: seq<int>)
    requires 0 < RuneLength(s) <= |s| && forall c <- rest :: Scalar(c)
    requires EncodeAll(rest) == s[RuneLength(s)..]
    ensures forall c <- [First(s)] + rest :: Scalar(c)
    ensures EncodeAll([First(s)] + rest) == s
  {
    hide RuneLength, Encode, First, EncodeAll, Scalar;
    FirstIsEncoded(s);
    EncodeMore(First(s), rest);
    assert s == s[..RuneLength(s)] + s[RuneLength(s)..];
  }

  lemma EncodeMore(code: int, rest: seq<int>)
    requires Scalar(code) && forall c <- rest :: Scalar(c)
    ensures forall c <- [code] + rest :: Scalar(c)
    ensures EncodeAll([code] + rest) == Encode(code) + EncodeAll(rest)
  {
    assert ([code] + rest)[1..] == rest;
    hide Encode, Scalar;
  }

  lemma {:induction false} EncodedIsValid(codes: seq<int>)
    requires forall c <- codes :: Scalar(c)
    ensures Valid(EncodeAll(codes))
  {
    if codes != [] {
      var head, rest := Encode(codes[0]), EncodeAll(codes[1..]);
      EncodedIsRune(codes[0], rest);
      hide RuneLength, Encode;
      EncodedIsValid(codes[1..]);
      assert (head + rest)[|head|..] == rest;
    }
  }
}
