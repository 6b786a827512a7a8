/** Cutting a lane list into read groups, and the ids each lane stamps. */
module Lanes {
  import opened Wrappers

  // ---- read groups -----------------------------------------------------------------------------------

  /** How many groups a list of that length is cut into. */
  function GroupCount(len: nat, n: int): nat {
    var want := if n < 1 then 1 else n;
    if want > len then len else want
  }

  function Joined<T>(groups: seq<seq<T>>): seq<T> {
    if groups == [] then [] else Joined(groups[..|groups| - 1]) + groups[|groups| - 1]
  }

  /** Where group i begins. */
  function Cut(i: nat, len: nat, m: nat): nat
    requires m > 0
  {
    i * len / m
  }

  /** Every group has the common size or one more, and the cuts stay in the list. */
  lemma CutSize(i: nat, len: nat, m: nat)
    requires 0 < m <= len && i < m
    ensures len / m <= Cut(i + 1, len, m) - Cut(i, len, m) <= len / m + 1
    ensures Cut(i + 1, len, m) <= len
  {
    Last(i + 1, len, m);
    CutStep(i, len / m, m, len % m, len);
  }

  lemma CutStep(i: nat, q: nat, m: nat, r: nat, len: nat)
    requires m > 0 && r < m && len == q * m + r
    ensures q <= (i + 1) * len / m - i * len / m <= q + 1
  {
    Scale(i, q, m, r);
    Scale(i + 1, q, m, r);
    Distribute(i, q, r);
    Monotone(i * r, i * r + r, m);
    Bump(i * r, r, m);
  }

  lemma Distribute(i: nat, q: nat, r: nat)
    ensures (i + 1) * r == i * r + r && (i + 1) * q == i * q + q
  {}

  lemma Scale(i: nat, q: nat, m: nat, r: nat)
    requires m > 0
    ensures i * (q * m + r) / m == i * q + i * r / m
  {
    assert i * (q * m + r) == m * (i * q) + i * r;
    DivAdd(i * q, i * r, m);
  }

  lemma DivAdd(a: nat, b: nat, m: nat)
    requires m > 0
    ensures (m * a + b) / m == a + b / m
  {
    var k := b / m;
    assert b == m * k + b % m;
    DivUnique(m * a + b, m, a + k, b % m);
  }

  lemma MulLess(a: nat, b: nat, m: nat)
    requires a < b
    ensures m * a + m <= m * b
  {
    var d := b - a - 1;
    assert m * (a + 1 + d) == m * a + m + m * d;
    Nonnegative(m, d);
  }

  lemma Nonnegative(m: nat, d: nat)
    ensures m * d >= 0
  {}

  /** A quotient is the only number whose multiple is at most a divisor below. */
  lemma DivUnique(x: nat, m: nat, d: nat, e: nat)
    requires m > 0 && e < m && x == m * d + e
    ensures x / m == d
  {
    var f, g := x / m, x % m;
    Between(m, d, e, f, g);
  }

  lemma Between(m: nat, d: nat, e: nat, f: nat, g: nat)
    requires e < m && g < m && m * d + e == m * f + g
    ensures d == f
  {
    if d < f {
      MulLess(d, f, m);
    } else if f < d {
      MulLess(f, d, m);
    }
  }

  lemma Monotone(a: nat, b: nat, m: nat)
    requires m > 0 && a <= b
    ensures a / m <= b / m
  {
    var f, g, h, k := a / m, a % m, b / m, b % m;
    Ordered(m, f, g, h, k);
  }

  lemma Ordered(m: nat, f: nat, g: nat, h: nat, k: nat)
    requires g < m && k < m && m * f + g <= m * h + k
    ensures f <= h
  {
    if h < f {
      MulLess(h, f, m);
    }
  }

  /** Adding less than a divisor moves a quotient by at most one. */
  lemma Bump(a: nat, r: nat, m: nat)
    requires r < m
    ensures (a + r) / m <= a / m + 1
  {
    Monotone(a + r, a + m, m);
    DivAdd(1, a, m);
  }

  lemma Last(i: nat, len: nat, m: nat)
    requires 0 < i <= m
    ensures i * len / m <= len
  {
    Monotone(i * len, m * len, m);
    DivAdd(len, 0, m);
  }

  /** Consecutive, none empty, sizes differing by at most one, together the whole list. */
  method PartitionLanes<T>(lanes: seq<T>, n: int) returns (out: seq<seq<T>>)
    ensures |out| == GroupCount(|lanes|, n)
    ensures |out| == if lanes == [] then 0 else if n < 1 then 1 else if n < |lanes| then n else |lanes|
    ensures Joined(out) == lanes
    ensures forall i :: 0 <= i < |out| ==> |out[i]| > 0
    ensures forall i, j :: 0 <= i < |out| && 0 <= j < |out| ==> |out[i]| <= |out[j]| + 1
  {
    var len, m := |lanes|, n;
    if m < 1 {
      m := 1;
    }
    if m > len {
      m := len;
    }
    out := [];
    if m == 0 {
      return;
    }
    CutEnds(len, m);
    ghost var q := len / m;
    Monotone(m, len, m);
    for i := 0 to m
      invariant |out| == i && Cut(i, len, m) <= len
      invariant Joined(out) == lanes[..Cut(i, len, m)]
      invariant forall j :: 0 <= j < i ==> q <= |out[j]| <= q + 1
    {
      CutSize(i, len, m);
      var group := lanes[i * len / m..(i + 1) * len / m];
      assert (out + [group])[..i] == out;
      assert lanes[..Cut(i + 1, len, m)] == lanes[..Cut(i, len, m)] + group;
      out := out + [group];
    }
    assert lanes[..len] == lanes;
  }

  lemma CutEnds(len: nat, m: nat)
    requires m > 0
    ensures Cut(0, len, m) == 0 && Cut(m, len, m) == len
  {
    DivAdd(len, 0, m);
  }

  // ---- ids -------------------------------------------------------------------------------------------

  const SLICE: nat := 0x1000_0000_0000
  const MAX_LANES: nat := 0x10_0000
  const WIDTH: nat := 0x1_0000_0000_0000_0000

  /** The ids of the lane with ordinal n lie above its base and below the next one. */
  function Base(n: nat): nat { n * SLICE }

  /** No lane has counted past its own slice. */
  ghost predicate WithinSlices(next: map<nat, nat>) { forall n :: n in next ==> next[n] <= Base(n) + SLICE }

  predicate IssuedBy(next: map<nat, nat>, id: nat, n: nat) { n in next && Base(n) < id < next[n] }

  ghost predicate AllIssued(next: map<nat, nat>, issued: set<nat>) {
    forall id :: id in issued ==> exists n: nat :: IssuedBy(next, id, n)
  }

  predicate Started(next: map<nat, nat>) { forall n :: n in next ==> n < MAX_LANES && Base(n) < next[n] }

  lemma NewId(next: map<nat, nat>, issued: set<nat>, lane: nat, id: nat)
    requires Started(next) && WithinSlices(next) && AllIssued(next, issued) && lane in next
    requires next[lane] < Base(lane) + SLICE && id == next[lane] % WIDTH
    ensures id !in issued && id > 0
  {
    Fits(lane, next[lane]);
    if id in issued {
      var n: nat :| IssuedBy(next, id, n);
      Apart(n, lane);
    }
  }

  lemma IssuesNext(next: map<nat, nat>, issued: set<nat>, lane: nat, id: nat, after: map<nat, nat>)
    requires Started(next) && lane in next && after == next[lane := next[lane] + 1]
    requires (WithinSlices(next) ==> AllIssued(next, issued)) && id == next[lane] % WIDTH
    ensures Started(after) && (WithinSlices(after) ==> AllIssued(after, issued + {id}))
  {
    if WithinSlices(after) {
      IssuedOn(next, issued, lane, id, after);
    }
  }

  lemma IssuedOn(next: map<nat, nat>, issued: set<nat>, lane: nat, id: nat, after: map<nat, nat>)
    requires Started(next) && lane in next && after == next[lane := next[lane] + 1] && WithinSlices(after)
    requires (WithinSlices(next) ==> AllIssued(next, issued)) && id == next[lane] % WIDTH
    ensures AllIssued(after, issued + {id})
  {
    assert after[lane] == next[lane] + 1;
    assert WithinSlices(next) by {
      forall n | n in next
        ensures next[n] <= Base(n) + SLICE
      {
        assert after[n] <= Base(n) + SLICE;
      }
    }
    Fits(lane, next[lane]);
    forall x | x in issued + {id}
      ensures exists n: nat :: IssuedBy(after, x, n)
    {
      if x in issued {
        var n: nat :| IssuedBy(next, x, n);
        assert IssuedBy(after, x, n);
      } else {
        assert IssuedBy(after, x, lane);
      }
    }
  }

  lemma AddsLane(next: map<nat, nat>, issued: set<nat>, lane: nat, after: map<nat, nat>)
    requires lane !in next && after == next[lane := Base(lane) + 1]
    requires WithinSlices(next) ==> AllIssued(next, issued)
    ensures WithinSlices(after) ==> AllIssued(after, issued)
  {
    if WithinSlices(after) {
      forall n | n in next
        ensures next[n] <= Base(n) + SLICE
      {
        assert after[n] <= Base(n) + SLICE;
      }
      forall id | id in issued
        ensures exists n: nat :: IssuedBy(after, id, n)
      {
        var n: nat :| IssuedBy(next, id, n);
        assert IssuedBy(after, id, n);
      }
    }
  }

  /** The id counters of a run: one slice of the id space for each lane read. */
  class IdSpace {
    var ordinal: nat
    var next: map<nat, nat>
    ghost var issued: set<nat>

    ghost predicate Valid()
      reads this
    {
      && Started(next) && (forall n :: n in next ==> n < ordinal)
      && (WithinSlices(next) ==> AllIssued(next, issued))
    }

    constructor ()
      ensures Valid() && ordinal == 0 && issued == {}
    {
      ordinal, next, issued := 0, map[], {};
    }

    /** A lane's own slice, or a refusal once every slice is taken. */
    method AllocatorFor() returns (lane: Option<nat>)
      requires Valid()
      modifies this
      ensures Valid() && issued == old(issued)
      ensures lane.None? <==> old(ordinal) >= MAX_LANES
      ensures lane.Some? ==> lane.value !in old(next) && next == old(next)[lane.value := Base(lane.value) + 1]
    {
      var n := ordinal;
      ordinal := ordinal + 1;
      if n >= MAX_LANES {
        return None;
      }
      AddsLane(next, issued, n, next[n := Base(n) + 1]);
      next := next[n := Base(n) + 1];
      return Some(n);
    }

    /**
     The lane counts on, whatever its slice. While every lane is within its own and this one has not used
     its up, the id is new in the whole run.
     */
    method NextRecordID(lane: nat) returns (id: nat)
      requires Valid() && lane in next
      modifies this`next, this`issued
      ensures Valid()
      ensures id == old(next)[lane] % WIDTH && next == old(next)[lane := old(next)[lane] + 1]
      ensures issued == old(issued) + {id}
      ensures old(WithinSlices(next)) && old(next)[lane] < Base(lane) + SLICE ==> id !in old(issued) && id > 0
    {
      id := next[lane] % WIDTH;
      if WithinSlices(next) && next[lane] < Base(lane) + SLICE {
        NewId(next, issued, lane, id);
      }
      IssuesNext(next, issued, lane, id, next[lane := next[lane] + 1]);
      next := next[lane := next[lane] + 1];
      issued := issued + {id};
    }
  }

  /** Beyond its slice a lane runs into the next one's: their ids meet. */
  lemma SlicesMeet(n: nat, k: nat)
    requires n + 1 < MAX_LANES && 0 < k < SLICE
    ensures (Base(n) + SLICE + k) % WIDTH == Base(n + 1) + k
  {
    Fits(n + 1, Base(n + 1) + k);
  }

  lemma Fits(n: nat, id: nat)
    requires n < MAX_LANES && id < Base(n) + SLICE
    ensures id < WIDTH
  {
    assert Base(n) + SLICE <= Base(MAX_LANES - 1) + SLICE;
  }

  lemma Apart(m: nat, n: nat)
    ensures m < n ==> Base(m) + SLICE <= Base(n)
    ensures n < m ==> Base(n) + SLICE <= Base(m)
  {}
}
