/** What a literal never has, and which form of escape it has. */
module JsonEscapes {
  import opened Wrappers
  import opened Utf8
  import opened Json

  // ---- line separators ---------------------------------------------------------------------------------

  /** U+2028 or U+2029 stands in t at k as it is. */
  predicate RawSeparator(t: Bytes, k: nat) {
    k + 2 < |t| && t[k] == 0xE2 && t[k + 1] == 0x80 && (t[k + 2] == 0xA8 || t[k + 2] == 0xA9)
  }

  ghost predicate NoSeparator(t: Bytes) { forall k: nat :: !RawSeparator(t, k) }

  /** The byte that begins a separator is in p only at its front, and then p is three bytes and no separator. */
  predicate Guarded(p: Bytes) {
    (forall k :: 0 < k < |p| ==> p[k] != 0xE2) && (|p| > 0 && p[0] == 0xE2 ==> |p| == 3 && !RawSeparator(p, 0))
  }

  lemma SliceGuarded(s: Bytes, i: nat)
    requires i < |s| && s[i] >= 0x80 && !Decode(s, i).Bad() && !LineSeparator(Decode(s, i).value)
    ensures Guarded(s[i..i + Decode(s, i).size])
  {
    var n := Decode(s, i).size;
    var p := s[i..i + n];
    assert forall k :: 0 <= k < n ==> p[k] == s[i + k];
    assert forall k :: 0 < k < n ==> 0x80 <= p[k] <= 0xBF;
  }

  lemma PieceGuarded(s: Bytes, i: nat)
    requires i < |s|
    ensures Guarded(Piece(s, i))
  {
    if s[i] >= 0x80 && !Decode(s, i).Bad() && !LineSeparator(Decode(s, i).value) {
      SliceGuarded(s, i);
    }
  }

  lemma GuardedJoin(p: Bytes, q: Bytes)
    requires Guarded(p) && NoSeparator(q)
    ensures NoSeparator(p + q)
  {
    forall k: nat
      ensures !RawSeparator(p + q, k)
    {
      if k >= |p| {
        assert !RawSeparator(q, k - |p|);
      } else if k == 0 && p[0] == 0xE2 {
        assert (p + q)[..3] == p;
      }
    }
  }

  lemma {:induction false} EscapedSeparates(s: Bytes, i: nat)
    requires i <= |s|
    ensures NoSeparator(Escaped(s, i) + [QUOTE])
    decreases |s| - i
  {
    if i == |s| {
    } else {
      var k := i + Decode(s, i).size;
      PieceGuarded(s, i);
      EscapedSeparates(s, k);
      GuardedJoin(Piece(s, i), Escaped(s, k) + [QUOTE]);
      assert Escaped(s, i) + [QUOTE] == Piece(s, i) + (Escaped(s, k) + [QUOTE]);
    }
  }

  /** No literal has a line separator as it is, whatever bytes it was made from. */
  lemma LiteralSeparates(s: Bytes)
    ensures NoSeparator(Literal(s))
  {
    EscapedSeparates(s, 0);
    GuardedJoin([QUOTE], Escaped(s, 0) + [QUOTE]);
    assert Literal(s) == [QUOTE] + (Escaped(s, 0) + [QUOTE]);
  }

  // ---- the form of an escape -----------------------------------------------------------------------------

  /** A character has an escape of two bytes, by the reader's own table. */
  predicate HasLetter(c: Byte) {
    exists letter: Byte :: Meant(letter) == Some(c)
  }

  /**
   A character is escaped only if a reader would not take it as it is or it is a line separator, and by a letter
   whenever there is one.
   */
  lemma ShortestEscape(s: Bytes, i: nat)
    requires i < |s| && s[i] < 0x80
    ensures |Piece(s, i)| == 1 <==> s[i] >= 0x20 && s[i] != QUOTE && s[i] != BACKSLASH
    ensures |Piece(s, i)| > 1 ==> (|Piece(s, i)| == 2 <==> HasLetter(s[i]))
  {
    var c := s[i];
    if Letter(c).Some? {
      assert Meant(Letter(c).value) == Some(c);
    } else {
      forall letter: Byte | Meant(letter) == Some(c)
        ensures Verbatim(c)
      {
      }
    }
  }
}
