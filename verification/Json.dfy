/** The JSON encoder: string literals, value trees, and newline framing. */
module Json {
  import opened Wrappers
  import opened Utf8

  const QUOTE: Byte := 0x22
  const BACKSLASH: Byte := 0x5C
  const COMMA: Byte := 0x2C
  const COLON: Byte := 0x3A
  const NEWLINE: Byte := 0x0A

  // ---- escaping, one piece at a time -----------------------------------------------------------------

  /** ASCII that stands for itself in a literal. */
  predicate Verbatim(c: Byte) { 0x20 <= c < 0x80 && c != QUOTE && c != BACKSLASH }

  function Hex(d: int): Byte
    requires 0 <= d < 16
  {
    if d < 10 then 0x30 + d else 0x57 + d
  }

  /** The letter of a short escape. */
  function Letter(c: Byte): Option<Byte> {
    if c == QUOTE then Some(QUOTE)
    else if c == BACKSLASH then Some(BACKSLASH)
    else if c == 0x08 then Some(0x62)
    else if c == 0x0C then Some(0x66)
    else if c == 0x0A then Some(0x6E)
    else if c == 0x0D then Some(0x72)
    else if c == 0x09 then Some(0x74)
    else None
  }

  function Unicode(a: Byte, b: Byte, c: Byte, d: Byte): Bytes { [BACKSLASH, 0x75, a, b, c, d] }

  function Escape(c: Byte): Bytes
    requires c < 0x80
  {
    if Letter(c).Some? then [BACKSLASH, Letter(c).value] else Unicode(0x30, 0x30, Hex(c / 16), Hex(c % 16))
  }

  const REPLACED: Bytes := [0xEF, 0xBF, 0xBD]

  predicate LineSeparator(r: int) { r == 0x2028 || r == 0x2029 }

  /** What one character, or one ill-formed byte, of the text becomes. */
  function Piece(s: Bytes, i: nat): Bytes
    requires i < |s|
  {
    var r := Decode(s, i);
    if s[i] < 0x80 then if Verbatim(s[i]) then [s[i]] else Escape(s[i])
    else if r.Bad() then REPLACED
    else if LineSeparator(r.value) then Unicode(0x32, 0x30, 0x32, Hex(r.value - 0x2020))
    else s[i..i + r.size]
  }

  function Escaped(s: Bytes, i: nat): Bytes
    requires i <= |s|
    decreases |s| - i
  {
    if i == |s| then [] else Piece(s, i) + Escaped(s, i + Decode(s, i).size)
  }

  function Literal(s: Bytes): Bytes { [QUOTE] + Escaped(s, 0) + [QUOTE] }

  /**
   The loop copies unescaped stretches whole; what it appends is the literal escaped one character
   at a time.
   */
  method AppendString(dst: Bytes, s: Bytes) returns (out: Bytes)
    ensures out == dst + Literal(s)
  {
    out := dst + [QUOTE];
    ghost var goal := dst + [QUOTE] + Escaped(s, 0);
    var start, i := 0, 0;
    assert out + s[0..0] + Escaped(s, 0) == goal;
    while i < |s|
      invariant 0 <= start <= i <= |s| && Due(out, s, start, i, goal)
    {
      out, start, i := Scan(out, s, start, i, goal);
    }
    Closed(out, s[start..i], dst, Escaped(s, 0));
    assert s[start..] == s[start..i];
    out := out + s[start..] + [QUOTE];
  }

  /** One character further: it joins the stretch, or the stretch and its replacement go out. */
  method Scan(out: Bytes, s: Bytes, start: nat, i: nat, ghost goal: Bytes) returns (out': Bytes, start': nat, i': nat)
    requires start <= i < |s| && Due(out, s, start, i, goal)
    ensures i' == i + Decode(s, i).size && start' <= i' && Due(out', s, start', i', goal)
  {
    var c := s[i];
    var r := Decode(s, i);
    i' := i + r.size;
    if c < 0x80 {
      if Verbatim(c) {
        Copied(out, s, start, i, goal);
        return out, start, i';
      }
      out' := out + s[start..i] + Escape(c);
    } else if r.Bad() {
      out' := out + s[start..i] + REPLACED;
    } else if LineSeparator(r.value) {
      out' := out + s[start..i] + Unicode(0x32, 0x30, 0x32, Hex(r.value - 0x2020));
    } else {
      Copied(out, s, start, i, goal);
      return out, start, i';
    }
    Replaced(out, s, start, i, goal);
    start' := i';
  }

  /** What is out, the stretch not copied yet and the rest to come make the goal. */
  predicate Due(out: Bytes, s: Bytes, start: nat, i: nat, goal: Bytes)
    requires start <= i <= |s|
  {
    out + s[start..i] + Escaped(s, i) == goal
  }

  /** A character that stands for itself joins the stretch. */
  lemma Copied(out: Bytes, s: Bytes, start: nat, i: nat, goal: Bytes)
    requires start <= i < |s| && Due(out, s, start, i, goal) && Piece(s, i) == s[i..i + Decode(s, i).size]
    ensures Due(out, s, start, i + Decode(s, i).size, goal)
  {
    var j := i + Decode(s, i).size;
    Regroup(out, s[start..i], s[i..j], Escaped(s, j));
    assert s[start..j] == s[start..i] + s[i..j];
  }

  lemma Regroup(a: Bytes, b: Bytes, c: Bytes, d: Bytes)
    ensures a + b + (c + d) == a + (b + c) + d
  {}

  /** Any other ends it. */
  lemma Replaced(out: Bytes, s: Bytes, start: nat, i: nat, goal: Bytes)
    requires start <= i < |s| && Due(out, s, start, i, goal)
    ensures var j := i + Decode(s, i).size; Due(out + s[start..i] + Piece(s, i), s, j, j, goal)
  {
    var j := i + Decode(s, i).size;
    var piece, rest := Piece(s, i), Escaped(s, j);
    assert (out + s[start..i] + piece) + s[j..j] + rest == out + s[start..i] + (piece + rest);
  }

  lemma Closed(out: Bytes, stretch: Bytes, dst: Bytes, body: Bytes)
    requires out + stretch + [] == dst + [QUOTE] + body
    ensures out + stretch + [QUOTE] == dst + ([QUOTE] + body + [QUOTE])
  {
    assert out + stretch == dst + [QUOTE] + body;
  }

  // ---- reading a literal: section 7 of RFC 8259 --------------------------------------------------------

  function HexValue(c: Byte): Option<int> {
    if 0x30 <= c <= 0x39 then Some(c - 0x30)
    else if 0x61 <= c <= 0x66 then Some(c - 0x57)
    else if 0x41 <= c <= 0x46 then Some(c - 0x37)
    else None
  }

  /** The four digits of a \\u escape. */
  function Quad(t: Bytes, j: nat): Option<int> {
    if j + 4 > |t| then None
    else
      var a, b, c, d := HexValue(t[j]), HexValue(t[j + 1]), HexValue(t[j + 2]), HexValue(t[j + 3]);
      if a.None? || b.None? || c.None? || d.None? then None
      else Some(((a.value * 16 + b.value) * 16 + c.value) * 16 + d.value)
  }

  function Meant(letter: Byte): Option<int> {
    if letter == QUOTE || letter == BACKSLASH || letter == 0x2F then Some(letter)
    else if letter == 0x62 then Some(0x08)
    else if letter == 0x66 then Some(0x0C)
    else if letter == 0x6E then Some(0x0A)
    else if letter == 0x72 then Some(0x0D)
    else if letter == 0x74 then Some(0x09)
    else None
  }

  /** An escape at j: its code point, with a surrogate pair taken as one. */
  function ReadEscape(t: Bytes, j: nat): Option<Rune>
    requires j < |t| && t[j] == BACKSLASH
  {
    if j + 1 >= |t| then None
    else if t[j + 1] != 0x75 then if Meant(t[j + 1]).Some? then Some(Rune(Meant(t[j + 1]).value, 2)) else None
    else
      var u := Quad(t, j + 2);
      if u.None? then None
      else if !(0xD800 <= u.value < 0xE000) then Some(Rune(u.value, 6))
      else if u.value >= 0xDC00 || j + 8 > |t| || t[j + 6] != BACKSLASH || t[j + 7] != 0x75 then None
      else
        var v := Quad(t, j + 8);
        if v.None? || !(0xDC00 <= v.value < 0xE000) then None
        else Some(Rune(0x10000 + (u.value - 0xD800) * 0x400 + (v.value - 0xDC00), 12))
  }

  /** One character of a literal. */
  function ReadChar(t: Bytes, j: nat): (r: Option<Rune>)
    requires j < |t|
    ensures r.Some? ==> r.value.size > 0
  {
    if t[j] == BACKSLASH then ReadEscape(t, j)
    else if t[j] < 0x20 || Decode(t, j).Bad() then None
    else Some(Decode(t, j))
  }

  /** The code points of a literal from j to its closing quote, and where it ends. */
  function ReadFrom(t: Bytes, j: nat): (r: Option<(seq<int>, nat)>)
    ensures r.Some? ==> j < r.value.1 <= |t|
    decreases |t| - j
  {
    if j >= |t| then None
    else if t[j] == QUOTE then Some(([], j + 1))
    else
      var c := ReadChar(t, j);
      if c.None? then None
      else
        var rest := ReadFrom(t, j + c.value.size);
        if rest.None? then None else Some(([c.value.value] + rest.value.0, rest.value.1))
  }

  function ReadLiteral(t: Bytes): Option<seq<int>> {
    if t == [] || t[0] != QUOTE then None
    else
      var r := ReadFrom(t, 1);
      if r.Some? && r.value.1 == |t| then Some(r.value.0) else None
  }

  /** The text a byte string stands for: its code points, each ill-formed byte replaced. */
  function Runes(s: Bytes, i: nat): seq<int>
    requires i <= |s|
    decreases |s| - i
  {
    if i == |s| then [] else [Decode(s, i).value] + Runes(s, i + Decode(s, i).size)
  }

  // ---- every literal reads back ------------------------------------------------------------------------

  lemma HexRead(d: int)
    requires 0 <= d < 16
    ensures HexValue(Hex(d)) == Some(d)
  {}

  lemma ReadShort(c: Byte, t: Bytes, j: nat)
    requires c < 0x80 && !Verbatim(c) && j + |Escape(c)| <= |t| && t[j..j + |Escape(c)|] == Escape(c)
    ensures ReadChar(t, j) == Some(Rune(c, |Escape(c)|)) && t[j] != QUOTE
  {
    var e := Escape(c);
    assert t[j] == e[0] && t[j + 1] == e[1];
    if Letter(c).None? {
      assert t[j + 2] == e[2] && t[j + 3] == e[3] && t[j + 4] == e[4] && t[j + 5] == e[5];
      HexRead(c / 16);
      HexRead(c % 16);
    }
  }

  lemma ReadSeparator(r: int, t: Bytes, j: nat)
    requires LineSeparator(r)
    requires var e := Unicode(0x32, 0x30, 0x32, Hex(r - 0x2020)); j + 6 <= |t| && t[j..j + 6] == e
    ensures ReadChar(t, j) == Some(Rune(r, 6)) && t[j] != QUOTE
  {
    var e := t[j..j + 6];
    assert e[0] == t[j] && e[1] == t[j + 1] && e[2] == t[j + 2] && e[3] == t[j + 3] && e[4] == t[j + 4] &&
        e[5] == t[j + 5];
    HexRead(r - 0x2020);
  }

  /** Wherever a piece stands, a reader takes exactly it and sees the character it came from. */
  lemma ReadPiece(s: Bytes, i: nat, t: Bytes, j: nat)
    requires i < |s| && j + |Piece(s, i)| <= |t| && t[j..j + |Piece(s, i)|] == Piece(s, i)
    ensures |Piece(s, i)| > 0 && t[j] != QUOTE
    ensures ReadChar(t, j) == Some(Rune(Decode(s, i).value, |Piece(s, i)|))
  {
    var p, r := Piece(s, i), Decode(s, i);
    assert t[j] == p[0];
    if s[i] < 0x80 {
      if !Verbatim(s[i]) {
        ReadShort(s[i], t, j);
      }
    } else if r.Bad() {
      var one := REPLACED;
      assert Decode(one, 0) == Rune(REPLACEMENT, 3);
      assert one[0..3] == one;
      DecodeLocal(one, 0, t, j);
    } else if LineSeparator(r.value) {
      ReadSeparator(r.value, t, j);
    } else {
      DecodeLocal(s, i, t, j);
      MultiByte(s, i);
    }
  }

  predicate ByteAt(t: Bytes, j: nat, p: Bytes, i: nat) { j + i < |t| && i < |p| && t[j + i] == p[i] }

  /** The bytes stand in t at j. */
  predicate Stands(t: Bytes, j: nat, p: Bytes) {
    j + |p| <= |t| && forall i: nat {:trigger ByteAt(t, j, p, i)} :: i < |p| ==> ByteAt(t, j, p, i)
  }

  lemma StandsParts(t: Bytes, j: nat, p: Bytes, q: Bytes)
    requires Stands(t, j, p + q)
    ensures Stands(t, j, p) && Stands(t, j + |p|, q)
  {
    forall i: nat | i < |p|
      ensures ByteAt(t, j, p, i)
    {
      assert ByteAt(t, j, p + q, i);
    }
    var k := j + |p|;
    forall i: nat | i < |q|
      ensures ByteAt(t, k, q, i)
    {
      assert ByteAt(t, j, p + q, |p| + i);
    }
  }

  lemma StandsSlice(t: Bytes, j: nat, p: Bytes)
    requires Stands(t, j, p)
    ensures t[j..j + |p|] == p
  {
    forall i: nat | i < |p|
      ensures t[j..j + |p|][i] == p[i]
    {
      assert ByteAt(t, j, p, i);
    }
  }

  lemma StandsAt(t: Bytes, j: nat, p: Bytes, i: nat)
    requires Stands(t, j, p) && i < |p|
    ensures t[j + i] == p[i]
  {
    assert ByteAt(t, j, p, i);
  }

  /** A piece is read, then whatever follows it. */
  lemma ReadNext(s: Bytes, i: nat, k: nat, t: Bytes, j: nat, m: nat, end: nat)
    requires i < |s| && k == i + Decode(s, i).size && m == j + |Piece(s, i)| && Stands(t, j, Piece(s, i))
    requires ReadFrom(t, m) == Some((Runes(s, k), end))
    ensures ReadFrom(t, j) == Some((Runes(s, i), end))
  {
    StandsSlice(t, j, Piece(s, i));
    ReadPiece(s, i, t, j);
  }

  /** The first piece of an escaped text, and the rest behind it. */
  lemma EscapedParts(s: Bytes, i: nat, k: nat, t: Bytes, j: nat, m: nat)
    requires i < |s| && k == i + Decode(s, i).size && m == j + |Piece(s, i)| && Stands(t, j, Escaped(s, i) + [QUOTE])
    ensures Stands(t, j, Piece(s, i)) && Stands(t, m, Escaped(s, k) + [QUOTE])
    ensures j + |Escaped(s, i)| == m + |Escaped(s, k)|
  {
    var p, rest := Piece(s, i), Escaped(s, k) + [QUOTE];
    assert Escaped(s, i) + [QUOTE] == p + rest;
    StandsParts(t, j, p, rest);
  }

  lemma {:induction false} ReadEscaped(s: Bytes, i: nat, t: Bytes, j: nat)
    requires i <= |s| && Stands(t, j, Escaped(s, i) + [QUOTE])
    ensures ReadFrom(t, j) == Some((Runes(s, i), j + |Escaped(s, i)| + 1))
    decreases |s| - i
  {
    if i == |s| {
      StandsAt(t, j, Escaped(s, i) + [QUOTE], 0);
    } else {
      var k, m := i + Decode(s, i).size, j + |Piece(s, i)|;
      EscapedParts(s, i, k, t, j, m);
      ReadEscaped(s, k, t, m);
      ReadNext(s, i, k, t, j, m, m + |Escaped(s, k)| + 1);
    }
  }

  /** A literal anywhere is read from behind its opening quote to behind its closing one. */
  lemma ReadLiteralAt(s: Bytes, t: Bytes, j: nat)
    requires Stands(t, j, Literal(s))
    ensures t[j] == QUOTE && ReadFrom(t, j + 1) == Some((Runes(s, 0), j + |Literal(s)|))
  {
    assert Literal(s) == [QUOTE] + (Escaped(s, 0) + [QUOTE]);
    StandsParts(t, j, [QUOTE], Escaped(s, 0) + [QUOTE]);
    StandsAt(t, j, [QUOTE], 0);
    ReadEscaped(s, 0, t, j + 1);
  }

  lemma Whole(t: Bytes)
    ensures Stands(t, 0, t)
  {
    forall i: nat | i < |t|
      ensures ByteAt(t, 0, t, i)
    {
    }
  }

  /** Every string literal reads back as the original text, ill-formed bytes replaced. */
  lemma LiteralReadsBack(s: Bytes)
    ensures ReadLiteral(Literal(s)) == Some(Runes(s, 0))
  {
    Whole(Literal(s));
    ReadLiteralAt(s, Literal(s), 0);
  }
}
