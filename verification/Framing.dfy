/** Request bodies: each record encoded and ended by a newline. */
module Framing {
  import opened Wrappers
  import opened Utf8
  import opened Json
  import opened JsonValues

  /** Above every control character, so no newline. */
  predicate Clean(s: Bytes) { AtLeast(s, 0x20) }

  // ---- nothing the encoder writes is a control character ---------------------------------------------

  lemma CleanJoin(a: Bytes, b: Bytes)
    requires Clean(a) && Clean(b)
    ensures Clean(a + b)
  {}

  lemma PieceClean(s: Bytes, i: nat)
    requires i < |s|
    ensures Clean(Piece(s, i))
  {
    if s[i] >= 0x80 && !Decode(s, i).Bad() {
      MultiByte(s, i);
    }
  }

  lemma {:induction false} EscapedClean(s: Bytes, i: nat)
    requires i <= |s|
    ensures Clean(Escaped(s, i))
    decreases |s| - i
  {
    if i >= |s| {
    } else {
      var k := i + Decode(s, i).size;
      PieceClean(s, i);
      EscapedClean(s, k);
      CleanJoin(Piece(s, i), Escaped(s, k));
    }
  }

  lemma EnclosedClean(open: Byte, s: Bytes, close: Byte)
    requires Clean(s) && open >= 0x20 && close >= 0x20
    ensures Clean([open] + s + [close])
  {}

  lemma LiteralClean(s: Bytes)
    ensures Clean(Literal(s))
  {
    EscapedClean(s, 0);
    EnclosedClean(QUOTE, Escaped(s, 0), QUOTE);
  }

  lemma {:induction false} DigitsClean(n: nat)
    ensures Clean(Digits(n))
  {
    if n >= 10 {
      DigitsClean(n / 10);
      CleanJoin(Digits(n / 10), [0x30 + n % 10]);
    }
  }

  lemma NumberClean(n: int)
    ensures Clean(Number(n))
  {
    if n < 0 {
      DigitsClean(-n);
      CleanJoin([0x2D], Digits(-n));
    } else {
      DigitsClean(n);
    }
  }

  lemma {:induction false} ItemsClean(v: Value, n: nat)
    requires v.List? && n <= |v.items|
    ensures Clean(Items(v, n))
    decreases v, 0, n
  {
    if n == 0 {
    } else {
      ItemsClean(v, n - 1);
      EncodedClean(v.items[n - 1]);
      CleanJoin(Items(v, n - 1), Comma(n - 1));
      CleanJoin(Items(v, n - 1) + Comma(n - 1), Encoded(v.items[n - 1]));
    }
  }

  lemma MemberClean(f: Field, i: nat)
    requires Clean(Encoded(f.value))
    ensures Clean(Member(f, i))
  {
    LiteralClean(f.key);
    CleanJoin(Comma(i), Literal(f.key));
    CleanJoin(Comma(i) + Literal(f.key), [COLON]);
    CleanJoin(Comma(i) + Literal(f.key) + [COLON], Encoded(f.value));
  }

  lemma {:induction false} MembersClean(v: Value, order: seq<nat>, n: nat)
    requires v.Map? && n <= |order| && forall i :: 0 <= i < |order| ==> order[i] < |v.fields|
    ensures Clean(Members(v, order, n))
    decreases v, 0, n
  {
    if n == 0 {
    } else {
      MembersClean(v, order, n - 1);
      EncodedClean(v.fields[order[n - 1]].value);
      MemberClean(v.fields[order[n - 1]], n - 1);
      MembersStep(v, order, n - 1);
      CleanJoin(Members(v, order, n - 1), Member(v.fields[order[n - 1]], n - 1));
    }
  }

  lemma {:induction false} EncodedClean(v: Value)
    ensures Clean(Encoded(v))
    decreases v, 1, 0
  {
    match v
    case Int(n) => NumberClean(n);
    case Text(s) => LiteralClean(s);
    case Quoted(plain) => EnclosedClean(QUOTE, plain, QUOTE);
    case List(items) =>
      ItemsClean(v, |items|);
      EnclosedClean(0x5B, Items(v, |items|), 0x5D);
    case Map(fields) =>
      var order := Order(fields, |fields|);
      MembersClean(v, order, |order|);
      EnclosedClean(0x7B, Members(v, order, |order|), 0x7D);
    case _ =>
  }

  // ---- frames --------------------------------------------------------------------------------------------

  /** The newline ends a record; there is nothing at the end of a request. */
  function Frame(dst: Bytes, payload: Bytes): Bytes { dst + payload + [NEWLINE] }

  function Body(vs: seq<Value>): Bytes {
    if vs == [] then [] else Frame(Body(vs[..|vs| - 1]), Encoded(vs[|vs| - 1]))
  }

  /** One record: encoded onto the buffer, lifted out, framed back onto it. */
  method Encode(dst: Bytes, v: Value) returns (out: Option<Bytes>)
    ensures out == if Encodable(v) then Some(Frame(dst, Encoded(v))) else None
  {
    var start := |dst|;
    out := AppendValue(dst, v);
    if out.Some? {
      var payload := out.value[start..];
      assert payload == Encoded(v) && out.value[..start] == dst;
      out := Some(Frame(out.value[..start], payload));
    }
  }

  /** A whole request, or nothing when a record has no JSON. */
  method BuildBody(vs: seq<Value>) returns (body: Option<Bytes>)
    ensures body == if forall i :: 0 <= i < |vs| ==> Encodable(vs[i]) then Some(Body(vs)) else None
  {
    var buffer: Bytes := [];
    for i := 0 to |vs|
      invariant buffer == Body(vs[..i])
      invariant forall j :: 0 <= j < i ==> Encodable(vs[j])
    {
      assert vs[..i + 1][..i] == vs[..i];
      var next := Encode(buffer, vs[i]);
      if next.None? {
        return None;
      }
      buffer := next.value;
    }
    assert vs[..|vs|] == vs;
    return Some(buffer);
  }

  // ---- reading frames back -------------------------------------------------------------------------------

  /** The records of a body: what stands before each newline since the one before. */
  function Lines(body: Bytes, start: nat, i: nat): seq<Bytes>
    requires start <= i <= |body|
    decreases |body| - i
  {
    if i == |body| then []
    else if body[i] == NEWLINE then [body[start..i]] + Lines(body, i + 1, i + 1)
    else Lines(body, start, i + 1)
  }

  function EncodedAll(vs: seq<Value>): seq<Bytes> {
    if vs == [] then [] else EncodedAll(vs[..|vs| - 1]) + [Encoded(vs[|vs| - 1])]
  }

  /** A record without newline at the end of a body is the last line of it, whatever came before. */
  lemma {:induction false} LinesFrame(body: Bytes, start: nat, i: nat, payload: Bytes)
    requires start <= i <= |body| && Clean(payload) && (body == [] || body[|body| - 1] == NEWLINE)
    requires i == |body| ==> start == i
    ensures Lines(Frame(body, payload), start, i) == Lines(body, start, i) + [payload]
    decreases |body| - i
  {
    var whole := Frame(body, payload);
    if i == |body| {
      LinesLast(whole, start, i);
      assert whole[start..|whole| - 1] == payload;
    } else {
      assert whole[i] == body[i];
      if body[i] == NEWLINE {
        assert whole[start..i] == body[start..i];
        LinesFrame(body, i + 1, i + 1, payload);
        var first, rest := [body[start..i]], Lines(body, i + 1, i + 1);
        assert first + (rest + [payload]) == first + rest + [payload];
      } else {
        LinesFrame(body, start, i + 1, payload);
      }
    }
  }

  lemma {:induction false} LinesLast(whole: Bytes, start: nat, i: nat)
    requires start <= i < |whole| && whole[|whole| - 1] == NEWLINE
    requires forall k :: i <= k < |whole| - 1 ==> whole[k] != NEWLINE
    ensures Lines(whole, start, i) == [whole[start..|whole| - 1]]
    decreases |whole| - i
  {
    if i < |whole| - 1 {
      LinesLast(whole, start, i + 1);
    } else {
      assert Lines(whole, i + 1, i + 1) == [];
    }
  }

  /** For every sequence of value trees: the body splits on newlines into exactly the encoded records. */
  lemma {:induction false} BodySplits(vs: seq<Value>)
    ensures Lines(Body(vs), 0, 0) == EncodedAll(vs)
    ensures Body(vs) == [] || Body(vs)[|Body(vs)| - 1] == NEWLINE
  {
    if vs == [] {
    } else {
      var init, v := vs[..|vs| - 1], vs[|vs| - 1];
      BodySplits(init);
      EncodedClean(v);
      LinesFrame(Body(init), 0, 0, Encoded(v));
    }
  }
}
