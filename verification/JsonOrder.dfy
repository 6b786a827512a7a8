/** The bytes of a map depend on its fields and not on the order in which they are iterated. */
module JsonOrder {
  import opened Utf8
  import opened JsonValues

  /** The fields at the given places. */
  function Picked(fields: seq<Field>, order: seq<nat>): seq<Field>
    requires InRange(fields, order)
  {
    seq(|order|, i requires 0 <= i < |order| => fields[order[i]])
  }

  predicate DistinctKeys(fields: seq<Field>) {
    forall i, j :: 0 <= i < j < |fields| ==> fields[i].key != fields[j].key
  }

  predicate KeyLess(s: seq<Field>, i: nat, j: nat)
    requires i < |s| && j < |s|
  {
    Less(s[i].key, s[j].key)
  }

  predicate Strict(s: seq<Field>) {
    forall i: nat, j: nat {:trigger KeyLess(s, i, j)} :: i < j < |s| ==> KeyLess(s, i, j)
  }

  // ---- the order of keys is strict and total ------------------------------------------------------------------

  lemma {:induction false} LessTotal(a: Bytes, b: Bytes)
    ensures Less(a, b) || a == b || Less(b, a)
  {
    if a != [] && b != [] && a[0] == b[0] {
      LessTotal(a[1..], b[1..]);
      assert a == [a[0]] + a[1..] && b == [b[0]] + b[1..];
    }
  }

  lemma NotBoth(a: Bytes, b: Bytes)
    ensures !(Less(a, b) && Less(b, a)) && !Less(a, a)
  {
    if Less(a, b) {
      LessOneWay(a, b);
    }
    if Less(a, a) {
      LessOneWay(a, a);
    }
  }

  // ---- the fields in order --------------------------------------------------------------------------------------

  predicate Differ(o: seq<nat>, i: nat, j: nat)
    requires i < |o| && j < |o|
  {
    o[i] != o[j]
  }

  predicate NoRepeats(o: seq<nat>) {
    forall i: nat, j: nat {:trigger Differ(o, i, j)} :: i < j < |o| ==> Differ(o, i, j)
  }

  lemma RepeatsInit(o: seq<nat>)
    requires NoRepeats(o) && o != []
    ensures NoRepeats(o[..|o| - 1]) && o[|o| - 1] !in o[..|o| - 1]
  {
    var init := o[..|o| - 1];
    forall i: nat, j: nat | i < j < |init|
      ensures Differ(init, i, j)
    {
      assert Differ(o, i, j);
    }
    forall i: nat | i < |init|
      ensures init[i] != o[|o| - 1]
    {
      assert Differ(o, i, |o| - 1);
    }
  }

  lemma RepeatsSnoc(o: seq<nat>, k: nat)
    requires NoRepeats(o) && k !in o
    ensures NoRepeats(o + [k])
  {
    forall i: nat, j: nat | i < j < |o + [k]|
      ensures Differ(o + [k], i, j)
    {
      assert o[i] in o;
      assert j < |o| ==> Differ(o, i, j);
    }
  }

  /** Nothing is put in twice. */
  lemma {:induction false} InsertDistinct(fields: seq<Field>, order: seq<nat>, k: nat)
    requires k < |fields| && InRange(fields, order) && k !in order && NoRepeats(order)
    ensures NoRepeats(Insert(fields, order, k))
  {
    if order == [] || !Less(fields[k].key, fields[order[|order| - 1]].key) {
      RepeatsSnoc(order, k);
    } else {
      var init, last := order[..|order| - 1], order[|order| - 1];
      RepeatsInit(order);
      InsertDistinct(fields, init, k);
      InsertIn(fields, init, k);
      RepeatsSnoc(Insert(fields, init, k), last);
    }
  }

  lemma {:induction false} OrderDistinct(fields: seq<Field>, n: nat)
    requires n <= |fields|
    ensures NoRepeats(Order(fields, n))
  {
    if n == 0 {
    } else {
      OrderDistinct(fields, n - 1);
      if !fields[n - 1].value.Absent? {
        InsertDistinct(fields, Order(fields, n - 1), n - 1);
      }
    }
  }

  function InOrder(fields: seq<Field>): seq<Field> {
    OrderSorted(fields, |fields|);
    Picked(fields, Order(fields, |fields|))
  }

  lemma InOrderStrict(fields: seq<Field>)
    requires DistinctKeys(fields)
    ensures Strict(InOrder(fields))
  {
    var order, s := Order(fields, |fields|), InOrder(fields);
    OrderSorted(fields, |fields|);
    OrderDistinct(fields, |fields|);
    forall i: nat, j: nat | i < j < |s|
      ensures KeyLess(s, i, j)
    {
      assert KeyLeq(fields, order, i, j);
      assert Differ(order, i, j);
      LessTotal(s[i].key, s[j].key);
    }
  }

  lemma InOrderAll(fields: seq<Field>, f: Field)
    ensures f in InOrder(fields) <==> f in fields && !f.value.Absent?
  {
    var order := Order(fields, |fields|);
    OrderAll(fields, |fields|);
    if f in fields && !f.value.Absent? {
      var k :| 0 <= k < |fields| && fields[k] == f;
      assert k in order;
      var i :| 0 <= i < |order| && order[i] == k;
      assert InOrder(fields)[i] == f;
    }
    if f in InOrder(fields) {
      var i :| 0 <= i < |order| && InOrder(fields)[i] == f;
      assert order[i] in order;
    }
  }

  // ---- there is only one strict order -----------------------------------------------------------------------------

  lemma StrictInit(s: seq<Field>)
    requires Strict(s) && s != []
    ensures Strict(s[..|s| - 1]) && forall f :: f in s[..|s| - 1] ==> Less(f.key, s[|s| - 1].key)
  {
    var init := s[..|s| - 1];
    forall i: nat, j: nat | i < j < |init|
      ensures KeyLess(init, i, j)
    {
      assert KeyLess(s, i, j);
    }
    forall f | f in init
      ensures Less(f.key, s[|s| - 1].key)
    {
      var i: nat :| i < |init| && init[i] == f;
      assert KeyLess(s, i, |s| - 1);
    }
  }

  /** The last of one is the last of the other. */
  lemma SameLast(s: seq<Field>, t: seq<Field>)
    requires Strict(s) && Strict(t) && s != [] && t != [] && forall f :: f in s <==> f in t
    ensures s[|s| - 1] == t[|t| - 1]
  {
    var x, y := s[|s| - 1], t[|t| - 1];
    StrictInit(s);
    StrictInit(t);
    assert x in s && y in t;
    assert x in t && y in s;
    assert s == s[..|s| - 1] + [x] && t == t[..|t| - 1] + [y];
    if x != y {
      assert y in s[..|s| - 1] && x in t[..|t| - 1];
      NotBoth(x.key, y.key);
    }
  }

  lemma FirstIn(s: seq<Field>)
    requires s != []
    ensures s[0] in s
  {}

  lemma {:induction false} StrictUnique(s: seq<Field>, t: seq<Field>)
    requires Strict(s) && Strict(t) && forall f :: f in s <==> f in t
    ensures s == t
  {
    if s == [] {
      if t != [] {
        FirstIn(t);
      }
    } else if t == [] {
      FirstIn(s);
    } else {
      var a, b, x := s[..|s| - 1], t[..|t| - 1], s[|s| - 1];
      SameLast(s, t);
      StrictInit(s);
      StrictInit(t);
      assert s == a + [x] && t == b + [x];
      NotBoth(x.key, x.key);
      forall f
        ensures f in a <==> f in b
      {
        assert f in s <==> f in a || f == x;
        assert f in t <==> f in b || f == x;
      }
      StrictUnique(a, b);
    }
  }

  // ---- the bytes ----------------------------------------------------------------------------------------------------

  lemma {:induction false} SameMembers(v: Value, order: seq<nat>, w: Value, places: seq<nat>, n: nat)
    requires v.Map? && w.Map? && InRange(v.fields, order) && InRange(w.fields, places)
    requires Picked(v.fields, order) == Picked(w.fields, places) && n <= |order| && n <= |places|
    ensures Members(v, order, n) == Members(w, places, n)
  {
    if n == 0 {
    } else {
      SameMembers(v, order, w, places, n - 1);
      assert Picked(v.fields, order)[n - 1] == Picked(w.fields, places)[n - 1];
    }
  }

  /** Two maps with the same fields, listed in whatever order, have the same bytes. */
  lemma SameFieldsSameBytes(a: seq<Field>, b: seq<Field>)
    requires DistinctKeys(a) && DistinctKeys(b) && forall f :: f in a <==> f in b
    ensures Encoded(Map(a)) == Encoded(Map(b))
  {
    InOrderStrict(a);
    InOrderStrict(b);
    forall f
      ensures f in InOrder(a) <==> f in InOrder(b)
    {
      InOrderAll(a, f);
      InOrderAll(b, f);
    }
    StrictUnique(InOrder(a), InOrder(b));
    var o, p := Order(a, |a|), Order(b, |b|);
    assert |o| == |InOrder(a)| == |InOrder(b)| == |p|;
    SameMembers(Map(a), o, Map(b), p, |o|);
  }
}
