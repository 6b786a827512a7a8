/** How often a value occurs in a sequence, and which sequences are parts of others. */
module Counting {
  function Count<T(==)>(s: seq<T>, x: T): nat {
    if s == [] then 0 else Count(s[..|s| - 1], x) + if s[|s| - 1] == x then 1 else 0
  }

  lemma {:induction false} CountAppend<T>(a: seq<T>, b: seq<T>, x: T)
    ensures Count(a + b, x) == Count(a, x) + Count(b, x)
  {
    if b == [] {
      assert a + b == a;
    } else {
      CountAppend(a, b[..|b| - 1], x);
      assert (a + b)[..|a + b| - 1] == a + b[..|b| - 1];
    }
  }

  lemma CountOne<T>(s: seq<T>, y: T, x: T)
    ensures Count(s + [y], x) == Count(s, x) + if y == x then 1 else 0
  {
    assert (s + [y])[..|s|] == s;
  }

  lemma {:induction false} CountIn<T>(s: seq<T>, x: T)
    ensures Count(s, x) > 0 <==> x in s
  {
    if s == [] {
    } else {
      CountIn(s[..|s| - 1], x);
      assert s == s[..|s| - 1] + [s[|s| - 1]];
    }
  }

  // ---- sublists --------------------------------------------------------------------------------------

  predicate Places<T(==)>(part: seq<T>, whole: seq<T>, at: seq<nat>) {
    && |at| == |part|
    && (forall i :: 0 <= i < |part| ==> at[i] < |whole| && whole[at[i]] == part[i])
    && (forall i, j :: 0 <= i < j < |at| ==> at[i] < at[j])
  }

  /** The part is in the whole, in the same order. */
  ghost predicate InOrder<T>(part: seq<T>, whole: seq<T>) {
    exists at: seq<nat> :: Places(part, whole, at)
  }

  lemma InOrderSkip<T>(part: seq<T>, whole: seq<T>, x: T)
    requires InOrder(part, whole)
    ensures InOrder(part, whole + [x])
  {
    var at: seq<nat> :| Places(part, whole, at);
    assert Places(part, whole + [x], at);
  }

  lemma InOrderTake<T>(part: seq<T>, whole: seq<T>, x: T)
    requires InOrder(part, whole)
    ensures InOrder(part + [x], whole + [x])
  {
    var at: seq<nat> :| Places(part, whole, at);
    assert Places(part + [x], whole + [x], at + [|whole|]);
  }

  lemma InOrderAll<T>(s: seq<T>)
    ensures InOrder(s, s)
  {
    assert Places(s, s, seq(|s|, i requires 0 <= i < |s| => i));
  }
}
