/**
 A reader of JSON texts without insignificant white space, after RFC 8259, and what the encoder writes
 as it reads it.
 */
module JsonReader {
  import opened Wrappers
  import opened Utf8
  import opened Json
  import opened JsonValues

  /**
   A JSON text as read: integers by their value, other numbers by their text, strings by their code
   points, members in order.
   */
  datatype Tree =
    | JNull
    | JBool(b: bool)
    | JInt(n: int)
    | JNumber(text: Bytes)
    | JText(runes: seq<int>)
    | JList(items: seq<Tree>)
    | JMap(members: seq<Pair>)

  datatype Pair = Pair(key: seq<int>, value: Tree)

  const OPEN_LIST: Byte := 0x5B
  const CLOSE_LIST: Byte := 0x5D
  const OPEN_MAP: Byte := 0x7B
  const CLOSE_MAP: Byte := 0x7D

  // ---- the reader -------------------------------------------------------------------------------------

  predicate IsDigit(c: Byte) { 0x30 <= c <= 0x39 }

  /** The value of a string of decimal digits, by their places. */
  function PlaceValue(s: Bytes): Option<nat> {
    if s == [] then None
    else
      var c, init := s[|s| - 1], s[..|s| - 1];
      if !IsDigit(c) then None
      else if init == [] then Some(c - 0x30)
      else
        var v := PlaceValue(init);
        if v.None? then None else Some(v.value * 10 + (c - 0x30))
  }

  /** A natural number: digits with no superfluous zero in front. */
  function ReadNat(s: Bytes): Option<nat> {
    if |s| > 1 && s[0] == 0x30 then None else PlaceValue(s)
  }

  /** An integer: a natural number, or a minus in front of a positive one. */
  function ReadInt(s: Bytes): Option<int> {
    if s == [] then None
    else
      var minus := s[0] == 0x2D;
      var v := ReadNat(if minus then s[1..] else s);
      if v.None? || (minus && v.value == 0) then None
      else
        var n: int := v.value;
        Some(if minus then -n else n)
  }

  function NumberTree(s: Bytes): Tree { if ReadInt(s).Some? then JInt(ReadInt(s).value) else JNumber(s) }

  /** The end of the longest stretch of number characters from j. */
  function NumberEnd(t: Bytes, j: nat): (k: nat)
    requires j <= |t|
    ensures j <= k <= |t|
    decreases |t| - j
  {
    if j < |t| && NumChar(t[j]) then NumberEnd(t, j + 1) else j
  }

  /** The byte is at k. */
  predicate ByteIs(t: Bytes, k: nat, c: Byte) { k < |t| && t[k] == c }

  /** One value at j, and where it ends. */
  function ReadValue(t: Bytes, j: nat): (r: Option<(Tree, nat)>)
    ensures r.Some? ==> j < r.value.1 <= |t|
    decreases |t| - j, 1
  {
    if j >= |t| then None
    else if t[j] == QUOTE then
      var r := ReadFrom(t, j + 1);
      if r.Some? then Some((JText(r.value.0), r.value.1)) else None
    else if StartsNumber(t[j]) then Some((NumberTree(t[j..NumberEnd(t, j + 1)]), NumberEnd(t, j + 1)))
    else if t[j] == OPEN_LIST then
      if ByteIs(t, j + 1, CLOSE_LIST) then Some((JList([]), j + 2))
      else
        var r := ReadItems(t, j + 1);
        if r.Some? then Some((JList(r.value.0), r.value.1)) else None
    else if t[j] == OPEN_MAP then
      if ByteIs(t, j + 1, CLOSE_MAP) then Some((JMap([]), j + 2))
      else
        var r := ReadMembers(t, j + 1);
        if r.Some? then Some((JMap(r.value.0), r.value.1)) else None
    else ReadWord(t, j)
  }

  function ReadWord(t: Bytes, j: nat): (r: Option<(Tree, nat)>)
    ensures r.Some? ==> j < r.value.1 <= |t|
  {
    if Stands(t, j, NULL) then Some((JNull, j + 4))
    else if Stands(t, j, TRUE) then Some((JBool(true), j + 4))
    else if Stands(t, j, FALSE) then Some((JBool(false), j + 5))
    else None
  }

  /** At least one value, up to the bracket that closes the list. */
  function ReadItems(t: Bytes, j: nat): (r: Option<(seq<Tree>, nat)>)
    ensures r.Some? ==> j < r.value.1 <= |t|
    decreases |t| - j, 2
  {
    var v := ReadValue(t, j);
    if v.None? then None
    else
      var k := v.value.1;
      if ByteIs(t, k, CLOSE_LIST) then Some(([v.value.0], k + 1))
      else if !ByteIs(t, k, COMMA) then None
      else
        var rest := ReadItems(t, k + 1);
        if rest.None? then None else Some(([v.value.0] + rest.value.0, rest.value.1))
  }

  /** One member: a literal, a colon and a value. */
  function ReadMember(t: Bytes, j: nat): (r: Option<(Pair, nat)>)
    ensures r.Some? ==> j < r.value.1 <= |t|
    decreases |t| - j, 2
  {
    if j >= |t| || t[j] != QUOTE then None
    else
      var key := ReadFrom(t, j + 1);
      if key.None? || !ByteIs(t, key.value.1, COLON) then None
      else
        var v := ReadValue(t, key.value.1 + 1);
        if v.None? then None else Some((Pair(key.value.0, v.value.0), v.value.1))
  }

  function ReadMembers(t: Bytes, j: nat): (r: Option<(seq<Pair>, nat)>)
    ensures r.Some? ==> j < r.value.1 <= |t|
    decreases |t| - j, 3
  {
    var m := ReadMember(t, j);
    if m.None? then None
    else
      var k := m.value.1;
      if ByteIs(t, k, CLOSE_MAP) then Some(([m.value.0], k + 1))
      else if !ByteIs(t, k, COMMA) then None
      else
        var rest := ReadMembers(t, k + 1);
        if rest.None? then None else Some(([m.value.0] + rest.value.0, rest.value.1))
  }

  function ReadText(t: Bytes): Option<Tree> {
    var r := ReadValue(t, 0);
    if r.Some? && r.value.1 == |t| then Some(r.value.0) else None
  }

  // ---- what a value tree means ------------------------------------------------------------------------

  /** Ill-formed bytes are replaced, absent fields omitted, and the fields of a map are in the order of their keys. */
  function Meaning(v: Value): Tree
    decreases v, 0
  {
    match v
    case Absent => JNull
    case Null => JNull
    case Bool(b) => JBool(b)
    case Int(n) => JInt(n)
    case Float(text) => if text.Some? then NumberTree(text.value) else JNull
    case Text(s) => JText(Runes(s, 0))
    case Quoted(plain) => JText(plain)
    case List(items) => JList(seq(|items|, i requires 0 <= i < |items| => Meaning(items[i])))
    case Map(fields) =>
      var order := Order(fields, |fields|);
      JMap(seq(|order|, i requires 0 <= i < |order| =>
        Pair(Runes(fields[order[i]].key, 0), Meaning(fields[order[i]].value))))
  }

  // ---- numbers and plain strings ----------------------------------------------------------------------

  lemma {:induction false} DigitsNumeral(n: nat)
    ensures Digits(n) != [] && forall i :: 0 <= i < |Digits(n)| ==> 0x30 <= Digits(n)[i] <= 0x39
  {
    if n < 10 {
    } else {
      DigitsNumeral(n / 10);
    }
  }

  lemma {:induction false} DigitsValue(n: nat)
    ensures PlaceValue(Digits(n)) == Some(n) && (n > 0 ==> Digits(n)[0] != 0x30)
  {
    DigitsNumeral(n);
    if n < 10 {
      assert Digits(n)[..0] == [];
    } else {
      DigitsNumeral(n / 10);
      DigitsValue(n / 10);
      var d := Digits(n);
      assert d[..|d| - 1] == Digits(n / 10);
    }
  }

  /** Every integer reads back from its numeral. */
  lemma IntegerReadsBack(n: int)
    ensures ReadInt(Number(n)) == Some(n)
  {
    var m := if n < 0 then -n else n;
    DigitsNumeral(m);
    DigitsValue(m);
    if n < 0 {
      assert Number(n)[1..] == Digits(m);
    }
  }

  lemma NumberNumeral(n: int)
    ensures IsNumeral(Number(n))
  {
    DigitsNumeral(if n < 0 then -n else n);
  }

  /** A number ends here: nothing follows that could be part of it. */
  predicate Ended(t: Bytes, k: nat) { k >= |t| || !NumChar(t[k]) }

  lemma {:induction false} NumberEndAt(t: Bytes, k: nat, end: nat)
    requires k <= end <= |t| && Ended(t, end) && forall i :: k <= i < end ==> NumChar(t[i])
    ensures NumberEnd(t, k) == end
    decreases end - k
  {
    if k == end {
    } else {
      NumberEndAt(t, k + 1, end);
    }
  }

  lemma NumeralBack(s: Bytes, t: Bytes, j: nat)
    requires IsNumeral(s) && Stands(t, j, s) && Ended(t, j + |s|)
    ensures ReadValue(t, j) == Some((NumberTree(s), j + |s|))
  {
    forall i | j <= i < j + |s|
      ensures t[i] == s[i - j]
    {
      StandsAt(t, j, s, i - j);
    }
    NumberEndAt(t, j + 1, j + |s|);
    StandsSlice(t, j, s);
  }

  lemma NotWord(t: Bytes, j: nat, word: Bytes)
    requires j < |t| && word != [] && t[j] != word[0]
    ensures !Stands(t, j, word)
  {
    assert !ByteAt(t, j, word, 0);
  }

  lemma {:induction false} PlainEscaped(s: Bytes, i: nat)
    requires IsPlain(s) && i <= |s|
    ensures Escaped(s, i) == s[i..] && Runes(s, i) == s[i..]
    decreases |s| - i
  {
    if i == |s| {
    } else {
      PlainEscaped(s, i + 1);
      assert s[i..] == [s[i]] + s[i + 1..];
    }
  }

  lemma TextBack(s: Bytes, t: Bytes, j: nat)
    requires Stands(t, j, Literal(s))
    ensures ReadValue(t, j) == Some((JText(Runes(s, 0)), j + |Literal(s)|))
  {
    ReadLiteralAt(s, t, j);
  }

  // ---- lists and maps ---------------------------------------------------------------------------------

  lemma {:induction false} ItemsPrefix(v: Value, i: nat, n: nat)
    requires v.List? && i <= n <= |v.items|
    ensures |Items(v, i)| <= |Items(v, n)| && Items(v, n)[..|Items(v, i)|] == Items(v, i)
    decreases n - i
  {
    if i == n {
    } else {
      ItemsPrefix(v, i, n - 1);
      assert Items(v, n)[..|Items(v, n - 1)|] == Items(v, n - 1);
    }
  }

  lemma ByteBehind(t: Bytes, j: nat, p: Bytes, c: Byte)
    requires Stands(t, j, p + [c])
    ensures Stands(t, j, p) && ByteIs(t, j + |p|, c)
  {
    StandsParts(t, j, p, [c]);
    StandsAt(t, j + |p|, [c], 0);
  }

  lemma ByteBefore(t: Bytes, j: nat, c: Byte, p: Bytes)
    requires Stands(t, j, [c] + p)
    ensures ByteIs(t, j, c) && Stands(t, j + 1, p)
  {
    StandsParts(t, j, [c], p);
    StandsAt(t, j, [c], 0);
  }

  /** What stands between brackets. */
  lemma Framed(t: Bytes, j: nat, framed: Bytes, open: Byte, body: Bytes, close: Byte)
    requires framed == [open] + body + [close] && Stands(t, j, framed)
    ensures ByteIs(t, j, open) && Stands(t, j + 1, body) && ByteIs(t, j + 1 + |body|, close)
  {
    assert [open] + body + [close] == [open] + (body + [close]);
    ByteBefore(t, j, open, body + [close]);
    ByteBehind(t, j + 1, body, close);
  }

  lemma StandsPrefix(t: Bytes, j: nat, p: Bytes, n: nat)
    requires Stands(t, j, p) && n <= |p|
    ensures Stands(t, j, p[..n])
  {
    assert p == p[..n] + p[n..];
    StandsParts(t, j, p[..n], p[n..]);
  }

  /** Where element i begins, in a text that has the elements at b, by the sizes of the first ones. */
  function Start(sizes: seq<nat>, b: nat, i: nat): nat
    requires i < |sizes|
  {
    b + sizes[i] + if i > 0 then 1 else 0
  }

  predicate ItemSizeAt(v: Value, sizes: seq<nat>, i: nat)
    requires v.List? && i <= |v.items| < |sizes|
  {
    sizes[i] == |Items(v, i)|
  }

  /** How many bytes the first items take, for each number of them. */
  predicate ItemSizes(v: Value, sizes: seq<nat>)
    requires v.List?
  {
    |sizes| == |v.items| + 1
    && forall i: nat {:trigger ItemSizeAt(v, sizes, i)} :: i <= |v.items| ==> ItemSizeAt(v, sizes, i)
  }

  /** Where item i of a list begins and ends, in a text that has the items at b. */
  lemma ItemStands(v: Value, t: Bytes, b: nat, i: nat)
    requires v.List? && i < |v.items| && Stands(t, b, Items(v, |v.items|))
    ensures Stands(t, b, Items(v, i) + Comma(i))
    ensures Stands(t, b + |Items(v, i) + Comma(i)|, Encoded(v.items[i]))
    ensures |Items(v, i + 1)| == |Items(v, i) + Comma(i)| + |Encoded(v.items[i])|
  {
    ItemsPrefix(v, i + 1, |v.items|);
    StandsPrefix(t, b, Items(v, |v.items|), |Items(v, i + 1)|);
    StandsParts(t, b, Items(v, i) + Comma(i), Encoded(v.items[i]));
  }

  /** After the last element the bracket closes; after any other there is a comma. */
  predicate Followed(t: Bytes, k: nat, close: Byte, last: bool) {
    Ended(t, k) && if last then ByteIs(t, k, close) else ByteIs(t, k, COMMA) && !ByteIs(t, k, close)
  }

  /** What follows item i. */
  lemma ItemFollows(v: Value, t: Bytes, b: nat, i: nat)
    requires v.List? && i < |v.items| && Stands(t, b, Items(v, |v.items|))
    requires ByteIs(t, b + |Items(v, |v.items|)|, CLOSE_LIST)
    ensures Followed(t, b + |Items(v, i + 1)|, CLOSE_LIST, i + 1 == |v.items|)
  {
    var end := b + |Items(v, i + 1)|;
    if i + 1 < |v.items| {
      ItemStands(v, t, b, i + 1);
      ByteBehind(t, b, Items(v, i + 1), COMMA);
    }
  }

  /** One item is read, and then the others or the end of the list. */
  lemma ItemsNext(t: Bytes, j: nat, all: seq<Tree>, i: nat, k: nat, end: nat)
    requires i < |all| && ReadValue(t, j) == Some((all[i], k))
    requires Followed(t, k, CLOSE_LIST, i + 1 == |all|)
    requires if i + 1 == |all| then end == k + 1 else ReadItems(t, k + 1) == Some((all[i + 1..], end))
    ensures ReadItems(t, j) == Some((all[i..], end))
  {
    assert all[i..] == [all[i]] + all[i + 1..];
    if i + 1 == |all| {
      assert all[i..] == [all[i]];
    }
  }

  /** `all` are the meanings of the items. */
  predicate MeaningsOf(items: seq<Value>, all: seq<Tree>) {
    |all| == |items| && forall i: nat {:trigger MeaningAt(items, all, i)} :: i < |items| ==> MeaningAt(items, all, i)
  }

  predicate MeaningAt(items: seq<Value>, all: seq<Tree>, i: nat)
    requires i < |items| == |all|
  {
    all[i] == Meaning(items[i])
  }

  lemma ItemHere(v: Value, sizes: seq<nat>, t: Bytes, b: nat, i: nat)
    requires v.List? && i < |v.items| && ItemSizes(v, sizes) && Stands(t, b, Items(v, |v.items|))
    requires ByteIs(t, b + |Items(v, |v.items|)|, CLOSE_LIST)
    ensures Stands(t, Start(sizes, b, i), Encoded(v.items[i]))
    ensures b + sizes[i + 1] == Start(sizes, b, i) + |Encoded(v.items[i])|
    ensures Followed(t, b + sizes[i + 1], CLOSE_LIST, i + 1 == |v.items|)
  {
    assert ItemSizeAt(v, sizes, i) && ItemSizeAt(v, sizes, i + 1);
    ItemStands(v, t, b, i);
    ItemFollows(v, t, b, i);
    assert b + |Items(v, i) + Comma(i)| == Start(sizes, b, i);
  }

  lemma {:induction false} ItemsBack(v: Value, sizes: seq<nat>, all: seq<Tree>, t: Bytes, b: nat, i: nat)
    requires v.List? && Encodable(v) && i < |v.items| && MeaningsOf(v.items, all) && ItemSizes(v, sizes)
    requires Stands(t, b, Items(v, |v.items|)) && ByteIs(t, b + |Items(v, |v.items|)|, CLOSE_LIST)
    ensures ReadItems(t, Start(sizes, b, i)) == Some((all[i..], b + sizes[|v.items|] + 1))
    decreases v, 0, |v.items| - i
  {
    assert MeaningAt(v.items, all, i);
    ItemHere(v, sizes, t, b, i);
    ReadBack(v.items[i], t, Start(sizes, b, i));
    if i + 1 < |v.items| {
      ItemsBack(v, sizes, all, t, b, i + 1);
    }
    ItemsNext(t, Start(sizes, b, i), all, i, b + sizes[i + 1], b + sizes[|v.items|] + 1);
  }

  lemma WholeListBack(v: Value, all: seq<Tree>, t: Bytes, b: nat)
    requires v.List? && Encodable(v) && v.items != [] && MeaningsOf(v.items, all)
    requires Stands(t, b, Items(v, |v.items|)) && ByteIs(t, b + |Items(v, |v.items|)|, CLOSE_LIST)
    ensures ReadItems(t, b) == Some((all, b + |Items(v, |v.items|)| + 1))
    decreases v, 1, 0
  {
    var sizes := seq(|v.items| + 1, i requires 0 <= i <= |v.items| => |Items(v, i)|);
    assert ItemSizeAt(v, sizes, 0) && ItemSizeAt(v, sizes, |v.items|);
    ItemsBack(v, sizes, all, t, b, 0);
    assert Start(sizes, b, 0) == b && all[0..] == all;
  }

  lemma ListBack(v: Value, all: seq<Tree>, t: Bytes, j: nat, items: Bytes)
    requires v.List? && Encodable(v) && MeaningsOf(v.items, all) && items == Items(v, |v.items|)
    requires Stands(t, j, [OPEN_LIST] + items + [CLOSE_LIST])
    ensures ReadValue(t, j) == Some((JList(all), j + |items| + 2))
    decreases v, 1, 1
  {
    Framed(t, j, [OPEN_LIST] + items + [CLOSE_LIST], OPEN_LIST, items, CLOSE_LIST);
    if v.items == [] {
      EmptyListReads(t, j);
    } else {
      WholeListBack(v, all, t, j + 1);
      ListReads(t, j, all, j + |items| + 2);
    }
  }

  lemma EmptyListReads(t: Bytes, j: nat)
    requires j < |t| && t[j] == OPEN_LIST && ByteIs(t, j + 1, CLOSE_LIST)
    ensures ReadValue(t, j) == Some((JList([]), j + 2))
  {}

  lemma ListReads(t: Bytes, j: nat, items: seq<Tree>, end: nat)
    requires ByteIs(t, j, OPEN_LIST) && ReadItems(t, j + 1) == Some((items, end))
    ensures ReadValue(t, j) == Some((JList(items), end))
  {
    if ByteIs(t, j + 1, CLOSE_LIST) {
      NoWord(t, j + 1);
    }
  }

  /** No word begins with a byte that none of them begins with. */
  lemma NoWord(t: Bytes, j: nat)
    requires j < |t| && t[j] != NULL[0] && t[j] != TRUE[0] && t[j] != FALSE[0]
    ensures ReadWord(t, j) == None
  {
    NotWord(t, j, NULL);
    NotWord(t, j, TRUE);
    NotWord(t, j, FALSE);
  }

  lemma {:induction false} MembersPrefix(v: Value, order: seq<nat>, i: nat, n: nat)
    requires v.Map? && i <= n <= |order| && InRange(v.fields, order)
    ensures |Members(v, order, i)| <= |Members(v, order, n)|
    ensures Members(v, order, n)[..|Members(v, order, i)|] == Members(v, order, i)
    decreases n - i
  {
    if i == n {
    } else {
      MembersPrefix(v, order, i, n - 1);
      MembersStep(v, order, n - 1);
      assert Members(v, order, n)[..|Members(v, order, n - 1)|] == Members(v, order, n - 1);
    }
  }

  /** A member in three parts. */
  predicate StandsMember(t: Bytes, j: nat, f: Field) {
    var n := |Literal(f.key)|;
    Stands(t, j, Literal(f.key)) && ByteIs(t, j + n, COLON) && Stands(t, j + n + 1, Encoded(f.value))
  }

  function MemberSize(f: Field): nat { |Literal(f.key)| + 1 + |Encoded(f.value)| }

  function Gap(i: nat): nat { if i > 0 then 1 else 0 }

  lemma MemberParts(t: Bytes, b: nat, before: Bytes, i: nat, key: Bytes, value: Bytes)
    requires Stands(t, b, before + (Comma(i) + key + [COLON] + value))
    ensures i > 0 ==> ByteIs(t, b + |before|, COMMA)
    ensures var j := b + |before| + Gap(i);
            Stands(t, j, key) && ByteIs(t, j + |key|, COLON) && Stands(t, j + |key| + 1, value)
  {
    var rest := key + ([COLON] + value);
    assert Comma(i) + key + [COLON] + value == Comma(i) + rest;
    StandsParts(t, b, before, Comma(i) + rest);
    StandsParts(t, b + |before|, Comma(i), rest);
    if i > 0 {
      StandsAt(t, b + |before|, [COMMA], 0);
    }
    var j := b + |before| + Gap(i);
    StandsParts(t, j, key, [COLON] + value);
    ByteBefore(t, j + |key|, COLON, value);
  }

  lemma MemberLength(f: Field, i: nat)
    ensures |Member(f, i)| == Gap(i) + MemberSize(f)
  {}

  /** A member that stands behind others. */
  lemma MemberBehind(t: Bytes, b: nat, before: Bytes, f: Field, i: nat)
    requires Stands(t, b, before + Member(f, i))
    ensures (i > 0 ==> ByteIs(t, b + |before|, COMMA)) && StandsMember(t, b + |before| + Gap(i), f)
  {
    MemberParts(t, b, before, i, Literal(f.key), Encoded(f.value));
  }

  lemma CommaBehind(t: Bytes, b: nat, before: Bytes, f: Field, i: nat)
    requires Stands(t, b, before + Member(f, i)) && i > 0
    ensures ByteIs(t, b + |before|, COMMA)
  {
    MemberBehind(t, b, before, f, i);
  }

  lemma MemberHere(v: Value, order: seq<nat>, t: Bytes, b: nat, i: nat)
    requires v.Map? && i < |order| && InRange(v.fields, order) && Stands(t, b, Members(v, order, |order|))
    ensures Stands(t, b, Members(v, order, i) + Member(v.fields[order[i]], i))
    ensures |Members(v, order, i + 1)| == |Members(v, order, i)| + Gap(i) + MemberSize(v.fields[order[i]])
  {
    MemberLength(v.fields[order[i]], i);
    MembersPrefix(v, order, i + 1, |order|);
    StandsPrefix(t, b, Members(v, order, |order|), |Members(v, order, i + 1)|);
    MembersStep(v, order, i);
  }

  lemma MemberNext(t: Bytes, j: nat, key: seq<int>, k: nat, value: Tree, end: nat)
    requires ByteIs(t, j, QUOTE) && ReadFrom(t, j + 1) == Some((key, k)) && ByteIs(t, k, COLON)
    requires ReadValue(t, k + 1) == Some((value, end))
    ensures ReadMember(t, j) == Some((Pair(key, value), end))
  {}

  /** One member is read, and then the others or the end of the map. */
  lemma PairsNext(t: Bytes, j: nat, all: seq<Pair>, i: nat, k: nat, end: nat)
    requires i < |all| && ReadMember(t, j) == Some((all[i], k))
    requires Followed(t, k, CLOSE_MAP, i + 1 == |all|)
    requires if i + 1 == |all| then end == k + 1 else ReadMembers(t, k + 1) == Some((all[i + 1..], end))
    ensures ReadMembers(t, j) == Some((all[i..], end))
  {
    assert all[i..] == [all[i]] + all[i + 1..];
    if i + 1 == |all| {
      assert all[i..] == [all[i]];
    }
  }

  /** `all` are the meanings of the fields, in the given order. */
  predicate PairsOf(fields: seq<Field>, order: seq<nat>, all: seq<Pair>) {
    && InRange(fields, order) && |all| == |order|
    && forall i: nat {:trigger PairAt(fields, order, all, i)} :: i < |order| ==> PairAt(fields, order, all, i)
  }

  predicate PairAt(fields: seq<Field>, order: seq<nat>, all: seq<Pair>, i: nat)
    requires InRange(fields, order) && i < |order| == |all|
  {
    all[i] == Pair(Runes(fields[order[i]].key, 0), Meaning(fields[order[i]].value))
  }

  /** The key of a member is read up to its colon. */
  lemma KeyReads(f: Field, t: Bytes, j: nat, runes: seq<int>, k: nat)
    requires StandsMember(t, j, f) && runes == Runes(f.key, 0) && k == j + |Literal(f.key)|
    ensures ByteIs(t, j, QUOTE) && ReadFrom(t, j + 1) == Some((runes, k)) && ByteIs(t, k, COLON)
  {
    ReadLiteralAt(f.key, t, j);
  }

  lemma FieldBack(f: Field, t: Bytes, j: nat, runes: seq<int>, end: nat)
    requires Encodable(f.value) && StandsMember(t, j, f) && Ended(t, end) && end == j + MemberSize(f)
    requires runes == Runes(f.key, 0)
    ensures ReadMember(t, j) == Some((Pair(runes, Meaning(f.value)), end))
    decreases f.value, 3, 0
  {
    var k := j + |Literal(f.key)|;
    KeyReads(f, t, j, runes, k);
    ReadBack(f.value, t, k + 1);
    MemberNext(t, j, runes, k, Meaning(f.value), end);
  }

  predicate SizeAt(v: Value, order: seq<nat>, sizes: seq<nat>, i: nat)
    requires v.Map? && i <= |order| < |sizes| && InRange(v.fields, order)
  {
    sizes[i] == |Members(v, order, i)|
  }

  /** How many bytes the first members take, for each number of them. */
  predicate SizesOf(v: Value, order: seq<nat>, sizes: seq<nat>)
    requires v.Map? && InRange(v.fields, order)
  {
    |sizes| == |order| + 1
    && forall i: nat {:trigger SizeAt(v, order, sizes, i)} :: i <= |order| ==> SizeAt(v, order, sizes, i)
  }

  /** The members before member i, and the room it takes. */
  lemma PairRoom(v: Value, order: seq<nat>, sizes: seq<nat>, t: Bytes, b: nat, i: nat) returns (before: Bytes)
    requires v.Map? && i < |order| && InRange(v.fields, order) && SizesOf(v, order, sizes)
    requires Stands(t, b, Members(v, order, |order|))
    ensures |before| == sizes[i] && Stands(t, b, before + Member(v.fields[order[i]], i))
    ensures sizes[i + 1] == sizes[i] + Gap(i) + MemberSize(v.fields[order[i]])
  {
    assert SizeAt(v, order, sizes, i) && SizeAt(v, order, sizes, i + 1);
    MemberHere(v, order, t, b, i);
    before := Members(v, order, i);
  }

  lemma PairStands(v: Value, order: seq<nat>, sizes: seq<nat>, t: Bytes, b: nat, i: nat)
    requires v.Map? && i < |order| && InRange(v.fields, order) && SizesOf(v, order, sizes)
    requires Stands(t, b, Members(v, order, |order|))
    ensures StandsMember(t, Start(sizes, b, i), v.fields[order[i]])
    ensures b + sizes[i + 1] == Start(sizes, b, i) + MemberSize(v.fields[order[i]])
  {
    var before := PairRoom(v, order, sizes, t, b, i);
    MemberBehind(t, b, before, v.fields[order[i]], i);
  }

  lemma PairHere(v: Value, order: seq<nat>, sizes: seq<nat>, t: Bytes, b: nat, i: nat)
    requires v.Map? && i < |order| && InRange(v.fields, order) && SizesOf(v, order, sizes)
    requires Stands(t, b, Members(v, order, |order|)) && ByteIs(t, b + sizes[|order|], CLOSE_MAP)
    ensures StandsMember(t, Start(sizes, b, i), v.fields[order[i]])
    ensures b + sizes[i + 1] == Start(sizes, b, i) + MemberSize(v.fields[order[i]])
    ensures Followed(t, b + sizes[i + 1], CLOSE_MAP, i + 1 == |order|)
  {
    PairStands(v, order, sizes, t, b, i);
    PairFollowed(v, order, sizes, t, b, i + 1);
  }

  lemma PairFollowed(v: Value, order: seq<nat>, sizes: seq<nat>, t: Bytes, b: nat, i: nat)
    requires v.Map? && 0 < i <= |order| && InRange(v.fields, order) && SizesOf(v, order, sizes)
    requires Stands(t, b, Members(v, order, |order|)) && ByteIs(t, b + sizes[|order|], CLOSE_MAP)
    ensures Followed(t, b + sizes[i], CLOSE_MAP, i == |order|)
  {
    if i < |order| {
      var before := PairRoom(v, order, sizes, t, b, i);
      CommaBehind(t, b, before, v.fields[order[i]], i);
    }
  }

  lemma PairBack(v: Value, order: seq<nat>, sizes: seq<nat>, all: seq<Pair>, t: Bytes, b: nat, i: nat)
    requires v.Map? && Encodable(v) && i < |order| && PairsOf(v.fields, order, all) && SizesOf(v, order, sizes)
    requires Stands(t, b, Members(v, order, |order|)) && ByteIs(t, b + sizes[|order|], CLOSE_MAP)
    ensures ReadMember(t, Start(sizes, b, i)) == Some((all[i], b + sizes[i + 1]))
    ensures Followed(t, b + sizes[i + 1], CLOSE_MAP, i + 1 == |order|)
    decreases v, 0, 0
  {
    assert PairAt(v.fields, order, all, i);
    PairHere(v, order, sizes, t, b, i);
    FieldBack(v.fields[order[i]], t, Start(sizes, b, i), all[i].key, b + sizes[i + 1]);
  }

  lemma {:induction false} PairsBack(v: Value, order: seq<nat>, sizes: seq<nat>, all: seq<Pair>, t: Bytes, b: nat,
                                     i: nat)
    requires v.Map? && Encodable(v) && i < |order| && PairsOf(v.fields, order, all) && SizesOf(v, order, sizes)
    requires Stands(t, b, Members(v, order, |order|)) && ByteIs(t, b + sizes[|order|], CLOSE_MAP)
    ensures ReadMembers(t, Start(sizes, b, i)) == Some((all[i..], b + sizes[|order|] + 1))
    decreases v, 0, |order| - i
  {
    PairBack(v, order, sizes, all, t, b, i);
    if i + 1 < |order| {
      PairsBack(v, order, sizes, all, t, b, i + 1);
    }
    PairsNext(t, Start(sizes, b, i), all, i, b + sizes[i + 1], b + sizes[|order|] + 1);
  }

  lemma WholeMapBack(v: Value, order: seq<nat>, all: seq<Pair>, t: Bytes, b: nat)
    requires v.Map? && Encodable(v) && |order| > 0 && PairsOf(v.fields, order, all)
    requires Stands(t, b, Members(v, order, |order|)) && ByteIs(t, b + |Members(v, order, |order|)|, CLOSE_MAP)
    ensures ReadMembers(t, b) == Some((all, b + |Members(v, order, |order|)| + 1))
    decreases v, 1, 0
  {
    var sizes := seq(|order| + 1, i requires 0 <= i <= |order| => |Members(v, order, i)|);
    assert SizeAt(v, order, sizes, 0) && SizeAt(v, order, sizes, |order|);
    PairsBack(v, order, sizes, all, t, b, 0);
    assert Start(sizes, b, 0) == b && all[0..] == all;
  }

  lemma NoMembers(v: Value, order: seq<nat>, members: Bytes)
    requires v.Map? && |order| == 0 && members == Members(v, order, |order|)
    ensures |members| == 0
  {}

  /** The members are read from b, in n bytes and the bracket behind them. */
  predicate MembersRead(t: Bytes, b: nat, all: seq<Pair>, n: nat) {
    if |all| == 0 then n == 0 else ReadMembers(t, b) == Some((all, b + n + 1))
  }

  /** The brackets of a map around its members. */
  lemma MapAround(t: Bytes, j: nat, all: seq<Pair>, members: Bytes)
    requires ByteIs(t, j, OPEN_MAP) && ByteIs(t, j + 1 + |members|, CLOSE_MAP)
    requires MembersRead(t, j + 1, all, |members|)
    ensures ReadValue(t, j) == Some((JMap(all), j + |members| + 2))
  {
    if |all| == 0 {
      EmptyMapReads(t, j, all);
    } else {
      MapReads(t, j, all, j + |members| + 2);
    }
  }

  lemma EmptyMapReads(t: Bytes, j: nat, all: seq<Pair>)
    requires |all| == 0 && j < |t| && t[j] == OPEN_MAP && ByteIs(t, j + 1, CLOSE_MAP)
    ensures ReadValue(t, j) == Some((JMap(all), j + 2))
  {}

  lemma MapReads(t: Bytes, j: nat, members: seq<Pair>, end: nat)
    requires ByteIs(t, j, OPEN_MAP) && ReadMembers(t, j + 1) == Some((members, end))
    ensures ReadValue(t, j) == Some((JMap(members), end))
  {}

  lemma WordBack(t: Bytes, j: nat, v: Value)
    requires (v.Absent? || v.Null? || v.Bool?) && Stands(t, j, Encoded(v))
    ensures ReadsAs(t, j, v)
  {
    StandsAt(t, j, Encoded(v), 0);
    if v.Bool? {
      NotWord(t, j, NULL);
      NotWord(t, j, if v.b then FALSE else TRUE);
    }
  }

  lemma NumberBack(n: int, t: Bytes, j: nat)
    requires Stands(t, j, Number(n)) && Ended(t, j + |Number(n)|)
    ensures ReadValue(t, j) == Some((JInt(n), j + |Number(n)|))
  {
    NumberNumeral(n);
    IntegerReadsBack(n);
    NumeralBack(Number(n), t, j);
  }

  lemma QuotedBack(plain: Bytes, t: Bytes, j: nat)
    requires IsPlain(plain) && Stands(t, j, [QUOTE] + plain + [QUOTE])
    ensures ReadValue(t, j) == Some((JText(plain), j + |plain| + 2))
  {
    PlainEscaped(plain, 0);
    assert Literal(plain) == [QUOTE] + plain + [QUOTE];
    TextBack(plain, t, j);
  }

  /** A map in parts: the order of its fields, what they mean and their bytes. */
  lemma MapMeans(v: Value) returns (order: seq<nat>, all: seq<Pair>, members: Bytes)
    requires v.Map?
    ensures PairsOf(v.fields, order, all) && members == Members(v, order, |order|)
    ensures Meaning(v) == JMap(all) && Encoded(v) == [OPEN_MAP] + members + [CLOSE_MAP]
  {
    order := Order(v.fields, |v.fields|);
    all, members := Meaning(v).members, Members(v, order, |order|);
  }

  /** The value at j is read as what v means, to the end of its encoding. */
  predicate ReadsAs(t: Bytes, j: nat, v: Value) { ReadValue(t, j) == Some((Meaning(v), j + |Encoded(v)|)) }

  lemma NumberReads(v: Value, t: Bytes, j: nat)
    requires (v.Int? || v.Float?) && Encodable(v) && Stands(t, j, Encoded(v)) && Ended(t, j + |Encoded(v)|)
    ensures ReadsAs(t, j, v)
  {
    if v.Int? {
      NumberBack(v.n, t, j);
    } else {
      NumeralBack(v.text.value, t, j);
    }
  }

  lemma StringReads(v: Value, t: Bytes, j: nat)
    requires (v.Text? || v.Quoted?) && Stands(t, j, Encoded(v))
    ensures ReadsAs(t, j, v)
  {
    if v.Text? {
      TextBack(v.s, t, j);
    } else {
      QuotedBack(v.plain, t, j);
    }
  }

  lemma ListMeans(v: Value, all: seq<Tree>, items: Bytes)
    requires v.List? && Meaning(v) == JList(all) && items == Items(v, |v.items|)
    ensures MeaningsOf(v.items, all) && Encoded(v) == [OPEN_LIST] + items + [CLOSE_LIST]
  {}

  lemma ListValueReads(v: Value, t: Bytes, j: nat)
    requires v.List? && Encodable(v) && Stands(t, j, Encoded(v))
    ensures ReadsAs(t, j, v)
    decreases v, 1, 2
  {
    var all, items := Meaning(v).items, Items(v, |v.items|);
    ListMeans(v, all, items);
    ListBack(v, all, t, j, items);
  }

  /** The brackets of a map and what stands between them. */
  lemma MapFramed(t: Bytes, j: nat, encoded: Bytes, members: Bytes)
    requires encoded == [OPEN_MAP] + members + [CLOSE_MAP] && Stands(t, j, encoded)
    ensures ByteIs(t, j, OPEN_MAP) && Stands(t, j + 1, members) && ByteIs(t, j + 1 + |members|, CLOSE_MAP)
    ensures |encoded| == |members| + 2
  {
    Framed(t, j, encoded, OPEN_MAP, members, CLOSE_MAP);
  }

  lemma MapInner(v: Value, order: seq<nat>, all: seq<Pair>, members: Bytes, t: Bytes, b: nat)
    requires v.Map? && Encodable(v) && PairsOf(v.fields, order, all) && members == Members(v, order, |order|)
    requires Stands(t, b, members) && ByteIs(t, b + |members|, CLOSE_MAP)
    ensures MembersRead(t, b, all, |members|)
    decreases v, 1, 1
  {
    if |order| == 0 {
      NoMembers(v, order, members);
    } else {
      WholeMapBack(v, order, all, t, b);
    }
  }

  lemma MapValueReads(v: Value, t: Bytes, j: nat)
    requires v.Map? && Encodable(v) && Stands(t, j, Encoded(v))
    ensures ReadsAs(t, j, v)
    decreases v, 1, 3
  {
    var order, all, members := MapMeans(v);
    MapFramed(t, j, Encoded(v), members);
    MapInner(v, order, all, members, t, j + 1);
    MapAround(t, j, all, members);
  }

  /** Every value tree that has an encoding is read back from it, wherever it stands. */
  lemma {:induction false} ReadBack(v: Value, t: Bytes, j: nat)
    requires Encodable(v) && Stands(t, j, Encoded(v)) && Ended(t, j + |Encoded(v)|)
    ensures ReadsAs(t, j, v)
    decreases v, 2, 0
  {
    if v.Int? || v.Float? {
      NumberReads(v, t, j);
    } else if v.Text? || v.Quoted? {
      StringReads(v, t, j);
    } else if v.List? {
      ListValueReads(v, t, j);
    } else if v.Map? {
      MapValueReads(v, t, j);
    } else {
      WordBack(t, j, v);
    }
  }

  /**
   Every value tree that has an encoding reads back from it as the tree it is: absent fields omitted, those
   of a map in the order of their keys, ill-formed bytes of a string replaced, and nothing left over.
   */
  lemma EncodedReadsBack(v: Value)
    requires Encodable(v)
    ensures ReadText(Encoded(v)) == Some(Meaning(v))
  {
    Whole(Encoded(v));
    ReadBack(v, Encoded(v), 0);
  }
}
