/** The flat scan that rejects lossy JSON before it is decoded (internal/execution/json.go),
    against the tree of the text (sections 2 to 7 of RFC 8259). */
module JsonScan {
  import opened Utf8

  const QUOTE: byte := 0x22
  const BACKSLASH: byte := 0x5C
  const LETTER_U: byte := 0x75
  const LETTER_N: byte := 0x6E

  const NULL_TEXT: Text := [0x6E, 0x75, 0x6C, 0x6C]
  const TRUE_TEXT: Text := [0x74, 0x72, 0x75, 0x65]
  const FALSE_TEXT: Text := [0x66, 0x61, 0x6C, 0x73, 0x65]

  // ----- The scanner -------------------------------------------------------------------------------

  predicate IsHex(b: byte) {
    0x30 <= b <= 0x39 || 0x41 <= b <= 0x46 || 0x61 <= b <= 0x66
  }

  function HexDigit(b: byte): (v: nat)
    ensures v < 16
  {
    if 0x30 <= b <= 0x39 then b - 0x30
    else if 0x41 <= b <= 0x46 then b - 0x41 + 10
    else if 0x61 <= b <= 0x66 then b - 0x61 + 10
    else 0
  }

  function HexValue(h: Text): (v: nat)
    requires |h| == 4
    ensures v < 0x10000
  {
    HexDigit(h[0]) * 0x1000 + HexDigit(h[1]) * 0x100 + HexDigit(h[2]) * 0x10 + HexDigit(h[3])
  }

  /** The four digits after the letter u at `s[0]`; None when they are missing or not digits. */
  datatype Escape = NoEscape | CodeUnit(value: nat)

  function UnicodeEscape(s: Text): Escape {
    if |s| < 5 || exists b <- s[1..5] :: !IsHex(b) then NoEscape else CodeUnit(HexValue(s[1..5]))
  }

  predicate High(v: nat) { 0xD800 <= v <= 0xDBFF }
  predicate Low(v: nat) { 0xDC00 <= v <= 0xDFFF }

  /** What the rest of the scan decides, from an index outside (`quoted` false) or inside a string. */
  predicate Scan(s: Text, quoted: bool)
    decreases |s|
  {
    if s == [] then true
    else if s[0] == QUOTE then Scan(s[1..], !quoted)
    else if !quoted then !(NULL_TEXT <= s) && Scan(s[1..], false)
    else if s[0] != BACKSLASH then Scan(s[1..], true)
    else if |s| < 2 then false
    else if s[1] != LETTER_U then Scan(s[2..], true)
    else
      match UnicodeEscape(s[1..])
      case NoEscape => false
      case CodeUnit(v) =>
        if Low(v) then false
        else if !High(v) then Scan(s[6..], true)
        else if |s| < 8 || s[6] != BACKSLASH || s[7] != LETTER_U then false
        else
          match UnicodeEscape(s[7..])
          case NoEscape => false
          case CodeUnit(low) => Low(low) && Scan(s[12..], true)
  }

  method ParseUnicodeEscape(raw: Text, u: nat) returns (value: nat, ok: bool)
    requires u <= |raw|
    ensures UnicodeEscape(raw[u..]) == if ok then CodeUnit(value) else NoEscape
  {
    if u + 5 > |raw| {
      return 0, false;
    }
    var digits := raw[u + 1..u + 5];
    assert raw[u..][1..5] == digits;
    if exists b <- digits :: !IsHex(b) {
      return 0, false;
    }
    return HexValue(digits), true;
  }

  method ValidJSONValues(raw: Text) returns (valid: bool)
    ensures valid == Scan(raw, false)
  {
    var quoted := false;
    var i := 0;
    while i < |raw|
      invariant i <= |raw| && Scan(raw[i..], quoted) == Scan(raw, false)
    {
      var s := raw[i..];
      if raw[i] == QUOTE {
        quoted := !quoted;
        i := i + 1;
        continue;
      }
      if !quoted {
        if NULL_TEXT <= s {
          return false;
        }
        i := i + 1;
        continue;
      }
      if raw[i] != BACKSLASH {
        i := i + 1;
        continue;
      }
      i := i + 1;
      if i >= |raw| {
        return false;
      }
      if raw[i] != LETTER_U {
        assert s[2..] == raw[i + 1..];
        i := i + 1;
        continue;
      }
      assert s[1..] == raw[i..];
      var value, ok := ParseUnicodeEscape(raw, i);
      if !ok || 0xDC00 <= value <= 0xDFFF {
        return false;
      }
      i := i + 4;
      assert s[6..] == raw[i + 1..];
      if 0xD800 <= value <= 0xDBFF {
        if i + 2 >= |raw| || raw[i + 1] != BACKSLASH || raw[i + 2] != LETTER_U {
          return false;
        }
        assert s[7..] == raw[i + 2..];
        var low, lowOk := ParseUnicodeEscape(raw, i + 2);
        if !lowOk || low < 0xDC00 || low > 0xDFFF {
          return false;
        }
        i := i + 6;
        assert s[12..] == raw[i + 1..];
      }
      i := i + 1;
    }
    return true;
  }

  // ----- JSON texts as trees -----------------------------------------------------------------------

  /** The characters of a string: a literal byte, a two-character escape, or a \u escape with its
      four digits as written. */
  datatype Char = Literal(b: byte) | Short(b: byte) | Unicode(digits: Text)

  /** A value with every byte of its text: white space (`before`, `after`) goes with the brackets,
      commas and colons it may surround, and numbers keep their spelling. */
  datatype Value =
    | Null | True | False
    | Number(spelling: Text)
    | Str(chars: seq<Char>)
    | Array(items: seq<Item>, blank: Text)
    | Object(members: seq<Member>, blank: Text)

  datatype Item = Item(before: Text, value: Value, after: Text)
  datatype Member = Member(lead: Text, name: seq<Char>, middle: Text, item: Item)

  predicate IsBlank(t: Text) {
    forall b <- t :: b == 0x20 || b == 0x09 || b == 0x0A || b == 0x0D
  }

  predicate IsNumber(t: Text) {
    t != [] && forall b <- t :: 0x30 <= b <= 0x39 || b == 0x2B || b == 0x2D || b == 0x2E || b == 0x45 || b == 0x65
  }

  predicate IsShortEscape(b: byte) {
    b == QUOTE || b == BACKSLASH || b == 0x2F || b == 0x62 || b == 0x66 || b == 0x6E || b == 0x72 || b == 0x74
  }

  predicate CharOk(c: Char) {
    match c
    case Literal(b) => b >= 0x20 && b != QUOTE && b != BACKSLASH
    case Short(b) => IsShortEscape(b)
    case Unicode(digits) => |digits| == 4 && forall b <- digits :: IsHex(b)
  }

  predicate CharsOk(chars: seq<Char>) {
    forall c <- chars :: CharOk(c)
  }

  predicate WellFormed(v: Value) {
    match v
    case Number(t) => IsNumber(t)
    case Str(chars) => CharsOk(chars)
    case Array(items, blank) => IsBlank(blank) && forall i <- items :: ItemOk(i)
    case Object(members, blank) => IsBlank(blank) && forall m <- members :: MemberOk(m)
    case _ => true
  }

  predicate ItemOk(i: Item) {
    IsBlank(i.before) && WellFormed(i.value) && IsBlank(i.after)
  }

  predicate MemberOk(m: Member) {
    IsBlank(m.lead) && CharsOk(m.name) && IsBlank(m.middle) && ItemOk(m.item)
  }

  function CharText(c: Char): Text {
    match c
    case Literal(b) => [b]
    case Short(b) => [BACKSLASH, b]
    case Unicode(digits) => [BACKSLASH, LETTER_U] + digits
  }

  function CharsText(chars: seq<Char>): Text {
    if chars == [] then [] else CharText(chars[0]) + CharsText(chars[1..])
  }

  function StringText(chars: seq<Char>): Text {
    [QUOTE] + CharsText(chars) + [QUOTE]
  }

  function ValueText(v: Value): Text
    decreases v, 0
  {
    match v
    case Null => NULL_TEXT
    case True => TRUE_TEXT
    case False => FALSE_TEXT
    case Number(t) => t
    case Str(chars) => StringText(chars)
    case Array(items, blank) => [0x5B] + (if items == [] then blank else ItemsText(items)) + [0x5D]
    case Object(members, blank) => [0x7B] + (if members == [] then blank else MembersText(members)) + [0x7D]
  }

  function ItemText(i: Item): Text
    decreases i, 1
  {
    i.before + ValueText(i.value) + i.after
  }

  function ItemsText(items: seq<Item>): Text
    decreases items, 2
  {
    if items == [] then []
    else ItemText(items[0]) + (if |items| == 1 then [] else [0x2C] + ItemsText(items[1..]))
  }

  function MemberText(m: Member): Text
    decreases m, 3
  {
    m.lead + StringText(m.name) + m.middle + [0x3A] + ItemText(m.item)
  }

  function MembersText(members: seq<Member>): Text
    decreases members, 4
  {
    if members == [] then []
    else MemberText(members[0]) + (if |members| == 1 then [] else [0x2C] + MembersText(members[1..]))
  }

  // ----- What a faithful text is -------------------------------------------------------------------

  /** The UTF-16 code unit of a well-formed \u escape. */
  function CodeOf(c: Char): nat {
    if c.Unicode? && |c.digits| == 4 then HexValue(c.digits) else 0
  }

  /** Every \u escape of the string is a scalar value, or a high and a low surrogate in this order
      and next to each other. */
  predicate WellPaired(chars: seq<Char>)
    decreases |chars|
  {
    if chars == [] then true
    else if Low(CodeOf(chars[0])) then false
    else if !High(CodeOf(chars[0])) then WellPaired(chars[1..])
    else |chars| >= 2 && Low(CodeOf(chars[1])) && WellPaired(chars[2..])
  }

  /** No value is null and every string, member names included, is well paired. */
  predicate Faithful(v: Value) {
    match v
    case Null => false
    case Str(chars) => WellPaired(chars)
    case Array(items, _) => forall i <- items :: Faithful(i.value)
    case Object(members, _) => forall m <- members :: WellPaired(m.name) && Faithful(m.item.value)
    case _ => true
  }

  // ----- The scanner agrees with the tree ------------------------------------------------------------

  predicate Plain(t: Text) {
    forall b <- t :: b != QUOTE && b != LETTER_N
  }

  lemma StepQuote(s: Text, quoted: bool)
    requires s != [] && s[0] == QUOTE
    ensures Scan(s, quoted) == Scan(s[1..], !quoted)
  {
  }

  lemma StepPlain(s: Text)
    requires s != [] && s[0] != QUOTE && s[0] != LETTER_N
    ensures Scan(s, false) == Scan(s[1..], false)
  {
    assert NULL_TEXT[0] == LETTER_N;
  }

  lemma StepLiteral(s: Text)
    requires s != [] && s[0] != QUOTE && s[0] != BACKSLASH
    ensures Scan(s, true) == Scan(s[1..], true)
  {
  }

  lemma StepShort(s: Text)
    requires |s| >= 2 && s[0] == BACKSLASH && s[1] != LETTER_U
    ensures Scan(s, true) == Scan(s[2..], true)
  {
  }

  lemma StepUnicode(s: Text)
    requires |s| >= 6 && s[0] == BACKSLASH && s[1] == LETTER_U && UnicodeEscape(s[1..]).CodeUnit?
    requires !High(UnicodeEscape(s[1..]).value)
    ensures Scan(s, true) == (!Low(UnicodeEscape(s[1..]).value) && Scan(s[6..], true))
  {
  }

  /** A high surrogate needs its partner right behind it. */
  lemma StepPair(s: Text)
    requires |s| >= 6 && s[0] == BACKSLASH && s[1] == LETTER_U && UnicodeEscape(s[1..]).CodeUnit?
    requires High(UnicodeEscape(s[1..]).value)
    ensures !(|s| >= 8 && s[6] == BACKSLASH && s[7] == LETTER_U && UnicodeEscape(s[7..]).CodeUnit?) ==> !Scan(s, true)
    ensures |s| >= 8 && s[6] == BACKSLASH && s[7] == LETTER_U && UnicodeEscape(s[7..]).CodeUnit?
      ==> Scan(s, true) == (Low(UnicodeEscape(s[7..]).value) && Scan(s[12..], true))
  {
  }

  /** Tokens without quotes or the letter n are passed over outside strings. */
  lemma {:induction false} ScanPlain(t: Text, rest: Text)
    requires Plain(t)
    ensures Scan(t + rest, false) == Scan(rest, false)
  {
    hide Scan;
    if t == [] {
      assert t + rest == rest;
    } else {
      assert (t + rest)[0] == t[0] && (t + rest)[1..] == t[1..] + rest;
      assert t[0] in t;
      StepPlain(t + rest);
      assert forall b <- t[1..] :: b in t;
      ScanPlain(t[1..], rest);
    }
  }

  lemma EscapeOf(c: Char, after: Text)
    requires CharOk(c) && c.Unicode?
    ensures var s := CharText(c) + after;
      && |s| >= 6 && s[0] == BACKSLASH && s[1] == LETTER_U
      && UnicodeEscape(s[1..]) == CodeUnit(CodeOf(c)) && s[6..] == after
  {
    var s := CharText(c) + after;
    assert s[1..][1..5] == c.digits;
    assert s[6..] == after;
  }

  /** One character of a string that is not a high surrogate. */
  lemma ScanChar(c: Char, after: Text)
    requires CharOk(c) && !High(CodeOf(c))
    ensures Scan(CharText(c) + after, true) == (!Low(CodeOf(c)) && Scan(after, true))
  {
    hide Scan;
    var s := CharText(c) + after;
    match c
    case Literal(b) =>
      assert s[1..] == after;
      StepLiteral(s);
    case Short(b) =>
      assert s[2..] == after;
      StepShort(s);
    case Unicode(digits) =>
      EscapeOf(c, after);
      StepUnicode(s);
  }

  /** A high surrogate with something other than an escape behind it. */
  lemma ScanLonely(c: Char, after: Text)
    requires CharOk(c) && High(CodeOf(c)) && |after| >= 1
    requires after[0] != BACKSLASH || (|after| >= 2 && after[1] != LETTER_U)
    ensures !Scan(CharText(c) + after, true)
  {
    hide Scan;
    var s := CharText(c) + after;
    EscapeOf(c, after);
    assert s[6] == after[0] && (|after| >= 2 ==> s[7] == after[1]);
    StepPair(s);
  }

  lemma ScanPair(c: Char, d: Char, after: Text)
    requires CharOk(c) && c.Unicode? && High(CodeOf(c)) && CharOk(d) && d.Unicode?
    ensures Scan(CharText(c) + (CharText(d) + after), true) == (Low(CodeOf(d)) && Scan(after, true))
  {
    hide Scan, UnicodeEscape, CodeOf;
    var t := CharText(d) + after;
    var s := CharText(c) + t;
    EscapeOf(c, t);
    EscapeOf(d, after);
    assert s[6..] == t;
    assert s[7..] == s[6..][1..];
    assert s[6] == t[0] && s[7] == t[1];
    assert s[12..] == t[6..];
    StepPair(s);
  }

  /** One high surrogate and the character behind it. */
  lemma ScanHigh(c: Char, d: Char, after: Text)
    requires CharOk(c) && High(CodeOf(c)) && CharOk(d)
    ensures Scan(CharText(c) + (CharText(d) + after), true) == (Low(CodeOf(d)) && Scan(after, true))
  {
    hide Scan;
    if d.Unicode? {
      ScanPair(c, d, after);
    } else {
      ScanLonely(c, CharText(d) + after);
    }
  }

  lemma {:induction false} ScanChars(chars: seq<Char>, rest: Text)
    requires CharsOk(chars)
    ensures Scan(CharsText(chars) + ([QUOTE] + rest), true) == (WellPaired(chars) && Scan(rest, false))
    decreases |chars|
  {
    hide Scan, CharText, CodeOf;
    var tail := [QUOTE] + rest;
    if chars == [] {
      assert CharsText(chars) + tail == tail && tail[1..] == rest;
      StepQuote(tail, true);
    } else {
      var after := CharsText(chars[1..]) + tail;
      assert CharsText(chars) + tail == CharText(chars[0]) + after;
      if !High(CodeOf(chars[0])) {
        ScanChar(chars[0], after);
        ScanChars(chars[1..], rest);
      } else if |chars| == 1 {
        assert after == tail;
        ScanLonely(chars[0], after);
      } else {
        var beyond := CharsText(chars[2..]) + tail;
        assert chars[1..][1..] == chars[2..];
        assert after == CharText(chars[1]) + beyond;
        ScanHigh(chars[0], chars[1], beyond);
        ScanChars(chars[2..], rest);
      }
    }
  }

  lemma ScanString(chars: seq<Char>, rest: Text)
    requires CharsOk(chars)
    ensures Scan(StringText(chars) + rest, false) == (WellPaired(chars) && Scan(rest, false))
  {
    hide Scan;
    var s := StringText(chars) + rest;
    assert s[0] == QUOTE && s[1..] == CharsText(chars) + ([QUOTE] + rest);
    StepQuote(s, false);
    ScanChars(chars, rest);
  }

  lemma ScanNull(rest: Text)
    ensures !Scan(NULL_TEXT + rest, false)
  {
    assert (NULL_TEXT + rest)[0] == LETTER_N;
  }

  /** Brackets around `inside` are passed over. */
  lemma ScanBrackets(open: byte, inside: Text, close: byte, rest: Text)
    requires Plain([open]) && Plain([close])
    ensures Scan([open] + inside + [close] + rest, false) == Scan(inside + ([close] + rest), false)
    ensures Scan([close] + rest, false) == Scan(rest, false)
  {
    hide Scan;
    assert [open] + inside + [close] + rest == [open] + (inside + ([close] + rest));
    ScanPlain([open], inside + ([close] + rest));
    ScanPlain([close], rest);
  }

  lemma {:induction false} ScanValue(v: Value, rest: Text)
    requires WellFormed(v)
    ensures Scan(ValueText(v) + rest, false) == (Faithful(v) && Scan(rest, false))
    decreases v, 0
  {
    hide Scan, ItemsText, MembersText, StringText, ItemOk, MemberOk, CharsOk, WellPaired;
    match v
    case Null => ScanNull(rest);
    case True => ScanPlain(TRUE_TEXT, rest);
    case False => ScanPlain(FALSE_TEXT, rest);
    case Number(t) => ScanPlain(t, rest);
    case Str(chars) => ScanString(chars, rest);
    case Array(items, blank) =>
      ScanBrackets(0x5B, if items == [] then blank else ItemsText(items), 0x5D, rest);
      if items == [] {
        ScanPlain(blank, [0x5D] + rest);
      } else {
        ScanItems(items, [0x5D] + rest);
      }
    case Object(members, blank) =>
      ScanBrackets(0x7B, if members == [] then blank else MembersText(members), 0x7D, rest);
      if members == [] {
        ScanPlain(blank, [0x7D] + rest);
      } else {
        ScanMembers(members, [0x7D] + rest);
      }
  }

  lemma {:induction false} ScanItem(i: Item, rest: Text)
    requires ItemOk(i)
    ensures Scan(ItemText(i) + rest, false) == (Faithful(i.value) && Scan(rest, false))
    decreases i, 1
  {
    assert ItemText(i) + rest == i.before + (ValueText(i.value) + (i.after + rest));
    ScanPlain(i.before, ValueText(i.value) + (i.after + rest));
    ScanValue(i.value, i.after + rest);
    ScanPlain(i.after, rest);
  }

  lemma {:induction false} ScanItems(items: seq<Item>, rest: Text)
    requires items != [] && forall i <- items :: ItemOk(i)
    ensures Scan(ItemsText(items) + rest, false) == ((forall i <- items :: Faithful(i.value)) && Scan(rest, false))
    decreases items, 2
  {
    if |items| == 1 {
      assert ItemsText(items) == ItemText(items[0]);
      ScanItem(items[0], rest);
    } else {
      var more := [0x2C] + (ItemsText(items[1..]) + rest);
      assert ItemsText(items) + rest == ItemText(items[0]) + more;
      ScanItem(items[0], more);
      ScanPlain([0x2C], ItemsText(items[1..]) + rest);
      ScanItems(items[1..], rest);
      assert items == [items[0]] + items[1..];
    }
  }

  lemma {:induction false} ScanMember(m: Member, rest: Text)
    requires MemberOk(m)
    ensures Scan(MemberText(m) + rest, false) == (WellPaired(m.name) && Faithful(m.item.value) && Scan(rest, false))
    decreases m, 3
  {
    var value := ItemText(m.item) + rest;
    var colon := m.middle + ([0x3A] + value);
    assert MemberText(m) + rest == m.lead + (StringText(m.name) + colon);
    ScanPlain(m.lead, StringText(m.name) + colon);
    ScanString(m.name, colon);
    ScanPlain(m.middle, [0x3A] + value);
    ScanPlain([0x3A], value);
    ScanItem(m.item, rest);
  }

  lemma {:induction false} ScanMembers(members: seq<Member>, rest: Text)
    requires members != [] && forall m <- members :: MemberOk(m)
    ensures Scan(MembersText(members) + rest, false)
      == ((forall m <- members :: WellPaired(m.name) && Faithful(m.item.value)) && Scan(rest, false))
    decreases members, 4
  {
    if |members| == 1 {
      assert MembersText(members) == MemberText(members[0]);
      ScanMember(members[0], rest);
    } else {
      var more := [0x2C] + (MembersText(members[1..]) + rest);
      assert MembersText(members) + rest == MemberText(members[0]) + more;
      ScanMember(members[0], more);
      ScanPlain([0x2C], MembersText(members[1..]) + rest);
      ScanMembers(members[1..], rest);
      assert members == [members[0]] + members[1..];
    }
  }

  /** For every JSON text, however its strings are escaped and its tokens spaced, the scan accepts
      exactly when no value is null and every \u escape is a scalar or a well-ordered pair. */
  lemma ScanAgreesWithTheTree(text: Item)
    requires ItemOk(text)
    ensures Scan(ItemText(text), false) <==> Faithful(text.value)
  {
    ScanItem(text, []);
    assert ItemText(text) + [] == ItemText(text);
  }
}
