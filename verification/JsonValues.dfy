/** Value trees as JSON, and request bodies of newline-framed records. */
module JsonValues {
  import opened Wrappers
  import opened Utf8
  import opened Json

  /** Bytes that stand for themselves in a literal: what the time and base64 writers produce. */
  predicate IsPlain(s: Bytes) { forall i :: 0 <= i < |s| ==> Verbatim(s[i]) }

  type Plain = s: Bytes | IsPlain(s)

  predicate NumChar(c: Byte) { 0x30 <= c <= 0x39 || c == 0x2B || c == 0x2D || c == 0x2E || c == 0x45 || c == 0x65 }

  predicate StartsNumber(c: Byte) { 0x30 <= c <= 0x39 || c == 0x2D }

  /** What the number writers produce: digits, signs, a point and an exponent, beginning with a digit or minus. */
  predicate IsNumeral(s: Bytes) { s != [] && StartsNumber(s[0]) && forall i :: 0 <= i < |s| ==> NumChar(s[i]) }

  type Numeral = s: Bytes | IsNumeral(s) witness [0x30]

  /**
   A value tree. `Absent` is no value at all, which a map omits; a float has no text when it is not
   finite; `Quoted` is a byte string or a time, as the writer of its format renders it.
   */
  datatype Value =
    | Absent | Null | Bool(b: bool) | Int(n: int) | Float(text: Option<Numeral>) | Text(s: Bytes) | Quoted(plain: Plain)
    | List(items: seq<Value>) | Map(fields: seq<Field>)

  datatype Field = Field(key: Bytes, value: Value)

  const NULL: Bytes := [0x6E, 0x75, 0x6C, 0x6C]
  const TRUE: Bytes := [0x74, 0x72, 0x75, 0x65]
  const FALSE: Bytes := [0x66, 0x61, 0x6C, 0x73, 0x65]

  function Digits(n: nat): Bytes {
    if n < 10 then [0x30 + n] else Digits(n / 10) + [0x30 + n % 10]
  }

  function Number(n: int): Bytes { if n < 0 then [0x2D] + Digits(-n) else Digits(n) }

  // ---- the order of a map's keys -------------------------------------------------------------------------

  predicate Less(a: Bytes, b: Bytes) {
    b != [] && (a == [] || a[0] < b[0] || (a[0] == b[0] && Less(a[1..], b[1..])))
  }

  /** They agree up to k, where a ends or has the smaller byte. */
  predicate DiffersAt(a: Bytes, b: Bytes, k: nat) {
    k <= |a| && k < |b| && a[..k] == b[..k] && (k == |a| || a[k] < b[k])
  }

  lemma DiffersTail(a: Bytes, b: Bytes, k: nat)
    requires a != [] && b != [] && a[0] == b[0]
    ensures DiffersAt(a, b, k + 1) <==> DiffersAt(a[1..], b[1..], k)
  {
    if k < |a| && k + 1 < |b| {
      assert a[..k + 1] == [a[0]] + a[1..][..k] && b[..k + 1] == [b[0]] + b[1..][..k];
      assert a[..k + 1][1..] == a[1..][..k] && b[..k + 1][1..] == b[1..][..k];
    }
  }

  lemma DiffersFirst(a: Bytes, b: Bytes, k: nat)
    requires a != [] && b != [] && DiffersAt(a, b, k)
    ensures a[0] < b[0] || (k > 0 && a[0] == b[0])
  {
    if k > 0 {
      assert a[..k][0] == b[..k][0];
    }
  }

  /** The order of the keys is that of their first differing byte, a prefix before what it begins. */
  lemma {:induction false} LessSpec(a: Bytes, b: Bytes)
    ensures Less(a, b) <==> exists k: nat :: DiffersAt(a, b, k)
  {
    if b != [] && (a == [] || a[0] < b[0]) {
      assert DiffersAt(a, b, 0);
    } else if b != [] {
      if k: nat :| DiffersAt(a, b, k) {
        DiffersFirst(a, b, k);
        DiffersTail(a, b, k - 1);
      }
      LessSpec(a[1..], b[1..]);
      if a[0] == b[0] && Less(a, b) {
        var k: nat :| DiffersAt(a[1..], b[1..], k);
        DiffersTail(a, b, k);
      }
    }
  }

  /** Puts field k into a list of fields sorted by key. */
  function Insert(fields: seq<Field>, order: seq<nat>, k: nat): seq<nat>
    requires k < |fields| && forall i :: 0 <= i < |order| ==> order[i] < |fields|
  {
    if order == [] || !Less(fields[k].key, fields[order[|order| - 1]].key) then order + [k]
    else Insert(fields, order[..|order| - 1], k) + [order[|order| - 1]]
  }

  /** The fields that have a value, among the first n, sorted by key. */
  function Order(fields: seq<Field>, n: nat): (order: seq<nat>)
    requires n <= |fields|
    ensures forall i :: 0 <= i < |order| ==> order[i] < n
  {
    if n == 0 then []
    else if fields[n - 1].value.Absent? then Order(fields, n - 1)
    else
      InsertBound(fields, Order(fields, n - 1), n - 1, n);
      Insert(fields, Order(fields, n - 1), n - 1)
  }

  lemma {:induction false} InsertBound(fields: seq<Field>, order: seq<nat>, k: nat, n: nat)
    requires k < n <= |fields| && forall i :: 0 <= i < |order| ==> order[i] < n
    ensures forall i :: 0 <= i < |Insert(fields, order, k)| ==> Insert(fields, order, k)[i] < n
  {
    if order != [] && Less(fields[k].key, fields[order[|order| - 1]].key) {
      InsertBound(fields, order[..|order| - 1], k, n);
    }
  }

  lemma {:induction false} InsertIn(fields: seq<Field>, order: seq<nat>, k: nat)
    requires k < |fields| && forall i :: 0 <= i < |order| ==> order[i] < |fields|
    ensures forall x :: x in Insert(fields, order, k) <==> x == k || x in order
  {
    if order != [] && Less(fields[k].key, fields[order[|order| - 1]].key) {
      InsertIn(fields, order[..|order| - 1], k);
      assert order == order[..|order| - 1] + [order[|order| - 1]];
    }
  }

  predicate Leq(a: Bytes, b: Bytes) { !Less(b, a) }

  lemma {:induction false} LessOneWay(a: Bytes, b: Bytes)
    requires Less(a, b)
    ensures Leq(a, b)
  {
    if a != [] && a[0] == b[0] {
      LessOneWay(a[1..], b[1..]);
    }
  }

  lemma {:induction false} LeqOn(a: Bytes, b: Bytes, c: Bytes)
    requires Leq(a, b) && Leq(b, c)
    ensures Leq(a, c)
  {
    if a != [] && b != [] && c != [] && a[0] == b[0] == c[0] {
      LeqOn(a[1..], b[1..], c[1..]);
    }
  }

  predicate InRange(fields: seq<Field>, order: seq<nat>) { forall i :: 0 <= i < |order| ==> order[i] < |fields| }

  predicate KeyLeq(fields: seq<Field>, order: seq<nat>, i: nat, j: nat)
    requires InRange(fields, order) && i < |order| && j < |order|
  {
    Leq(fields[order[i]].key, fields[order[j]].key)
  }

  predicate Sorted(fields: seq<Field>, order: seq<nat>)
    requires InRange(fields, order)
  {
    forall i: nat, j: nat {:trigger KeyLeq(fields, order, i, j)} :: i < j < |order| ==> KeyLeq(fields, order, i, j)
  }

  /** The keys up to the last one, and the last one no smaller than any of them. */
  lemma SortedSnoc(fields: seq<Field>, order: seq<nat>, k: nat)
    requires InRange(fields, order) && k < |fields| && Sorted(fields, order)
    requires forall x :: x in order ==> x < |fields| && Leq(fields[x].key, fields[k].key)
    ensures InRange(fields, order + [k]) && Sorted(fields, order + [k])
  {
    forall i: nat, j: nat | i < j < |order + [k]|
      ensures KeyLeq(fields, order + [k], i, j)
    {
      assert j < |order| ==> KeyLeq(fields, order, i, j);
      assert order[i] in order;
    }
  }

  lemma SortedInit(fields: seq<Field>, order: seq<nat>)
    requires InRange(fields, order) && Sorted(fields, order) && order != []
    ensures var init, last := order[..|order| - 1], order[|order| - 1];
            && InRange(fields, init) && Sorted(fields, init)
            && forall x :: x in init ==> x < |fields| && Leq(fields[x].key, fields[last].key)
  {
    var init, n := order[..|order| - 1], |order| - 1;
    forall i: nat, j: nat | i < j < |init|
      ensures KeyLeq(fields, init, i, j)
    {
      assert KeyLeq(fields, order, i, j);
    }
    forall i: nat | i < |init|
      ensures Leq(fields[init[i]].key, fields[order[n]].key)
    {
      assert KeyLeq(fields, order, i, n);
    }
  }

  lemma {:induction false} InsertSorted(fields: seq<Field>, order: seq<nat>, k: nat)
    requires k < |fields| && InRange(fields, order) && Sorted(fields, order)
    ensures InRange(fields, Insert(fields, order, k)) && Sorted(fields, Insert(fields, order, k))
  {
    if order == [] {
      SortedSnoc(fields, order, k);
    } else {
      var init, last := order[..|order| - 1], order[|order| - 1];
      SortedInit(fields, order);
      assert order == init + [last];
      if Less(fields[k].key, fields[last].key) {
        LessOneWay(fields[k].key, fields[last].key);
        InsertSorted(fields, init, k);
        InsertIn(fields, init, k);
        SortedSnoc(fields, Insert(fields, init, k), last);
      } else {
        forall x | x in order
          ensures Leq(fields[x].key, fields[k].key)
        {
          if x in init {
            LeqOn(fields[x].key, fields[last].key, fields[k].key);
          }
        }
        SortedSnoc(fields, order, k);
      }
    }
  }

  /** A map is written in the order of its keys. */
  lemma {:induction false} OrderSorted(fields: seq<Field>, n: nat)
    requires n <= |fields|
    ensures InRange(fields, Order(fields, n)) && Sorted(fields, Order(fields, n))
  {
    if n == 0 {
    } else {
      OrderSorted(fields, n - 1);
      if !fields[n - 1].value.Absent? {
        InsertSorted(fields, Order(fields, n - 1), n - 1);
      }
    }
  }

  // ---- what a tree becomes -------------------------------------------------------------------------------

  /** Every float in the tree is finite. */
  predicate Encodable(v: Value) {
    match v
    case Float(text) => text.Some?
    case List(items) => forall i :: 0 <= i < |items| ==> Encodable(items[i])
    case Map(fields) => forall i :: 0 <= i < |fields| ==> Encodable(fields[i].value)
    case _ => true
  }

  function Comma(i: nat): Bytes { if i > 0 then [COMMA] else [] }

  function Encoded(v: Value): Bytes
    decreases v, 1, 0
  {
    match v
    case Absent => NULL
    case Null => NULL
    case Bool(b) => if b then TRUE else FALSE
    case Int(n) => Number(n)
    case Float(text) => if text.Some? then text.value else []
    case Text(s) => Literal(s)
    case Quoted(plain) => [QUOTE] + plain + [QUOTE]
    case List(items) => [0x5B] + Items(v, |items|) + [0x5D]
    case Map(fields) => [0x7B] + Members(v, Order(fields, |fields|), |Order(fields, |fields|)|) + [0x7D]
  }

  /** The first n items of a list. */
  function Items(v: Value, n: nat): Bytes
    requires v.List? && n <= |v.items|
    decreases v, 0, n
  {
    if n == 0 then [] else Items(v, n - 1) + Comma(n - 1) + Encoded(v.items[n - 1])
  }

  /** The first n fields of a map, in the given order. */
  function Members(v: Value, order: seq<nat>, n: nat): Bytes
    requires v.Map? && n <= |order| && forall i :: 0 <= i < |order| ==> order[i] < |v.fields|
    decreases v, 0, n
  {
    if n == 0 then []
    else
      Members(v, order, n - 1) + Comma(n - 1) + Literal(v.fields[order[n - 1]].key) + [COLON]
      + Encoded(v.fields[order[n - 1]].value)
  }

  // ---- the encoder ---------------------------------------------------------------------------------------

  method AppendValue(dst: Bytes, v: Value) returns (out: Option<Bytes>)
    ensures out == if Encodable(v) then Some(dst + Encoded(v)) else None
    decreases v, 1
  {
    match v
    case Absent => out := Some(dst + NULL);
    case Null => out := Some(dst + NULL);
    case Bool(b) => out := Some(dst + if b then TRUE else FALSE);
    case Int(n) => out := Some(dst + Number(n));
    case Float(text) => out := if text.Some? then Some(dst + text.value) else None;
    case Text(s) =>
      var literal := AppendString(dst, s);
      out := Some(literal);
    case Quoted(plain) =>
      assert dst + [QUOTE] + plain + [QUOTE] == dst + ([QUOTE] + plain + [QUOTE]);
      out := Some(dst + [QUOTE] + plain + [QUOTE]);
    case List(items) => out := AppendList(dst, v);
    case Map(fields) => out := AppendMap(dst, v);
  }

  method AppendList(dst: Bytes, v: Value) returns (out: Option<Bytes>)
    requires v.List?
    ensures out == if Encodable(v) then Some(dst + Encoded(v)) else None
    decreases v, 0
  {
    var body := dst + [0x5B];
    for i := 0 to |v.items|
      invariant body == dst + [0x5B] + Items(v, i)
      invariant forall j :: 0 <= j < i ==> Encodable(v.items[j])
    {
      if i > 0 {
        body := body + [COMMA];
      }
      var next := AppendValue(body, v.items[i]);
      if next.None? {
        return None;
      }
      body := next.value;
    }
    assert body + [0x5D] == dst + ([0x5B] + Items(v, |v.items|) + [0x5D]);
    return Some(body + [0x5D]);
  }

  function Member(f: Field, i: nat): Bytes { Comma(i) + Literal(f.key) + [COLON] + Encoded(f.value) }

  method AppendMember(dst: Bytes, f: Field, i: nat) returns (out: Option<Bytes>)
    ensures out == if Encodable(f.value) then Some(dst + Member(f, i)) else None
    decreases f.value, 2
  {
    var body := dst;
    if i > 0 {
      body := body + [COMMA];
    }
    assert body == dst + Comma(i);
    body := AppendString(body, f.key);
    body := body + [COLON];
    out := AppendValue(body, f.value);
    Joined(dst, Comma(i), Literal(f.key), [COLON], Encoded(f.value));
  }

  lemma Joined(dst: Bytes, a: Bytes, b: Bytes, c: Bytes, d: Bytes)
    ensures dst + a + b + c + d == dst + (a + b + c + d)
  {}

  method AppendMap(dst: Bytes, v: Value) returns (out: Option<Bytes>)
    requires v.Map?
    ensures out == if Encodable(v) then Some(dst + Encoded(v)) else None
    decreases v, 0, 1
  {
    var order := Order(v.fields, |v.fields|);
    out := AppendMembers(dst + [0x7B], v, order);
    OrderAll(v.fields, |v.fields|);
    if out.Some? {
      Enclosed(dst, 0x7B, Members(v, order, |order|), 0x7D);
      out := Some(out.value + [0x7D]);
    }
  }

  lemma Enclosed(dst: Bytes, open: Byte, body: Bytes, close: Byte)
    ensures dst + [open] + body + [close] == dst + ([open] + body + [close])
  {}

  method AppendMembers(dst: Bytes, v: Value, order: seq<nat>) returns (out: Option<Bytes>)
    requires v.Map? && forall k :: 0 <= k < |order| ==> order[k] < |v.fields|
    ensures out == if forall j :: 0 <= j < |order| ==> Encodable(v.fields[order[j]].value)
                   then Some(dst + Members(v, order, |order|)) else None
    decreases v, 0, 0
  {
    var body := dst;
    for i := 0 to |order|
      invariant body == dst + Members(v, order, i)
      invariant forall j :: 0 <= j < i ==> Encodable(v.fields[order[j]].value)
    {
      var next := AppendMember(body, v.fields[order[i]], i);
      if next.None? {
        return None;
      }
      MembersNext(dst, body, v, order, i);
      body := next.value;
    }
    return Some(body);
  }

  lemma MembersStep(v: Value, order: seq<nat>, i: nat)
    requires v.Map? && i < |order| && (forall k :: 0 <= k < |order| ==> order[k] < |v.fields|)
    ensures Members(v, order, i + 1) == Members(v, order, i) + Member(v.fields[order[i]], i)
  {
    var f := v.fields[order[i]];
    Joined(Members(v, order, i), Comma(i), Literal(f.key), [COLON], Encoded(f.value));
  }

  lemma Regrouped(a: Bytes, b: Bytes, c: Bytes)
    ensures a + b + c == a + (b + c)
  {}

  lemma MembersNext(dst: Bytes, body: Bytes, v: Value, order: seq<nat>, i: nat)
    requires v.Map? && i < |order| && (forall k :: 0 <= k < |order| ==> order[k] < |v.fields|)
    requires body == dst + Members(v, order, i)
    ensures body + Member(v.fields[order[i]], i) == dst + Members(v, order, i + 1)
  {
    MembersStep(v, order, i);
    Regrouped(dst, Members(v, order, i), Member(v.fields[order[i]], i));
  }

  /** No field with a value is left out. */
  lemma {:induction false} OrderAll(fields: seq<Field>, n: nat)
    requires n <= |fields|
    ensures forall k :: 0 <= k < n ==> (k in Order(fields, n) <==> !fields[k].value.Absent?)
  {
    if n == 0 {
    } else {
      OrderAll(fields, n - 1);
      if !fields[n - 1].value.Absent? {
        InsertIn(fields, Order(fields, n - 1), n - 1);
      }
    }
  }
}
