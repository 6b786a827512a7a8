/**
 The other half of the fence: where an unresolved admission above the watermark can publish a later one
 that a revocation covered, outcomes exist after which that position is offered.
 */
module LedgerLeaks {
  import opened Wrappers
  import opened Records
  import opened LedgerSpec
  import opened LedgerInv
  import opened LedgerRuns
  import opened LedgerEpochs
  import F = LedgerFence
  import T = TrackerSpec

  // ---- admissions all of whose records are in flight ------------------------------------------------------

  /** Group gid is open for admission k, and every reference it waits for is a record in flight. */
  predicate OpenAt(s: State, id: LaneID, k: nat, gid: GroupID) {
    && id in s.lanes && gid in s.groups && s.groups[gid].lane == id && s.groups[gid].ticket == k
    && var st := s.lanes[id];
       && k < |st.log| == |st.history.admissions|
       && st.log[k].refs == |st.history.admissions[k].left|
       && forall r :: r in st.history.admissions[k].left ==> r in s.byRec && s.byRec[r] == gid
  }

  ghost predicate InFlightAt(s: State, id: LaneID, k: nat) {
    exists gid :: OpenAt(s, id, k, gid)
  }

  /** No reference of the lane waits for a record that is not in flight. */
  ghost predicate AllInFlight(s: State, id: LaneID)
    requires id in s.lanes
  {
    forall k: nat {:trigger InFlightAt(s, id, k)} ::
      k < |s.lanes[id].log| && !s.lanes[id].log[k].Resolved() ==> InFlightAt(s, id, k)
  }

  /** What outcomes leave alone. */
  predicate Steady(st: Lane, t: Lane) {
    && t.ordering == st.ordering && t.fencedThrough == st.fencedThrough && t.committed == st.committed
    && |t.log| == |t.history.admissions| == |st.log| == |st.history.admissions|
    && (forall k :: 0 <= k < |st.log| ==>
          t.log[k].payload == st.log[k].payload && t.history.admissions[k].epoch == st.history.admissions[k].epoch)
  }

  /** Admission n is as it was. */
  predicate Kept(st: Lane, t: Lane, n: nat)
    requires n < |st.log| == |st.history.admissions| && |t.log| == |t.history.admissions| == |st.log|
  {
    t.log[n] == st.log[n] && t.history.admissions[n] == st.history.admissions[n]
  }

  /** Only admission k has changed. */
  ghost predicate OnlyAt(s: State, s': State, id: LaneID, k: nat)
    requires id in s.lanes && id in s'.lanes && Steady(s.lanes[id], s'.lanes[id])
  {
    && (forall n: nat {:trigger Kept(s.lanes[id], s'.lanes[id], n)} ::
          n < |s.lanes[id].log| && n != k ==> Kept(s.lanes[id], s'.lanes[id], n))
    && (forall n: nat, gid {:trigger StaysOpen(s, s', id, n, gid)} :: n != k ==> StaysOpen(s, s', id, n, gid))
  }

  predicate StaysOpen(s: State, s': State, id: LaneID, n: nat, gid: GroupID) {
    OpenAt(s, id, n, gid) ==> OpenAt(s', id, n, gid)
  }

  // ---- one outcome ------------------------------------------------------------------------------------------

  lemma CloseSteady(st: Lane, g: Group)
    requires st.pending > 0
    ensures var t := CloseGroup(st, g); t.fencedThrough == st.fencedThrough && t.committed == st.committed
  {}

  lemma AfterSteady(st: Lane, g: Group, o: Outcome)
    requires LaneOK(st) && GroupOK(st, g) && st.pending > 0 && o.record in st.history.admissions[g.ticket].left
    ensures var t, k := LaneAfter(st, g, o), g.ticket;
            && Steady(st, t) && LaneOK(t)
            && t.log == st.log[k := t.log[k]] && t.log[k].refs == st.log[k].refs - 1
            && t.history.admissions[k].left == st.history.admissions[k].left - {o.record}
            && t.history.admissions == st.history.admissions[k := t.history.admissions[k]]
            && t.log == Noted(st, g, o).log
  {
    NotedEntry(st, g, o);
    LaneAfterOK(st, g, o);
    CloseSteady(Noted(st, g, o), SettleGroup(g, o));
  }

  /** The advance one outcome for admission k causes. */
  function Moved(st: Lane, t: Lane, id: LaneID, k: nat): seq<Advance>
    requires k < |st.history.admissions|
  {
    var a := T.Advance(st.log, t.log);
    if a.Some? && st.ordering != Discrete && !st.FencedEpoch(st.history.admissions[k].epoch)
    then [Advance(id, a.value)] else []
  }

  lemma OneOutcome(s: State, id: LaneID, k: nat, gid: GroupID, r: RecordID)
    requires Inv(s) && OpenAt(s, id, k, gid) && r in s.lanes[id].history.admissions[k].left
    ensures var o := Outcome(r, Delivered);
            var (s', moved) := SettleOne(s, o);
            && Inv(s') && id in s'.lanes && Steady(s.lanes[id], s'.lanes[id])
            && var st, t := s.lanes[id], s'.lanes[id];
               && t.log[k].refs == st.log[k].refs - 1
               && t.history.admissions[k].left == st.history.admissions[k].left - {r}
               && t.log == st.log[k := t.log[k]] && moved == Moved(st, t, id, k)
               && t.history.admissions == st.history.admissions[k := t.history.admissions[k]]
               && s'.byRec == s.byRec - {r} && s'.groups == GroupsAfter(s.groups, gid, o)
  {
    var o := Outcome(r, Delivered);
    GroupIndexed(s, gid);
    SettleOneKeeps(s, o);
    AfterSteady(s.lanes[id], s.groups[gid], o);
  }

  lemma OutcomeOnly(s: State, s': State, id: LaneID, k: nat, gid: GroupID, r: RecordID)
    requires OpenAt(s, id, k, gid) && r in s.lanes[id].history.admissions[k].left
    requires id in s'.lanes && Steady(s.lanes[id], s'.lanes[id])
    requires var st, t := s.lanes[id], s'.lanes[id];
             && t.log == st.log[k := t.log[k]]
             && t.history.admissions == st.history.admissions[k := t.history.admissions[k]]
    requires s'.byRec == s.byRec - {r} && s'.groups == GroupsAfter(s.groups, gid, Outcome(r, Delivered))
    ensures OnlyAt(s, s', id, k)
  {
    forall n: nat, h | n != k
      ensures StaysOpen(s, s', id, n, h)
    {
      if OpenAt(s, id, n, h) {
        OtherOpen(s, s', id, n, h, gid, r);
      }
    }
  }

  /** A group open for another admission stays so. */
  lemma OtherOpen(s: State, s': State, id: LaneID, n: nat, h: GroupID, gid: GroupID, r: RecordID)
    requires OpenAt(s, id, n, h) && h != gid && r in s.byRec && s.byRec[r] == gid
    requires id in s'.lanes && |s'.lanes[id].log| == |s'.lanes[id].history.admissions| == |s.lanes[id].log|
    requires Kept(s.lanes[id], s'.lanes[id], n) && s'.byRec == s.byRec - {r}
    requires h in s'.groups && s'.groups[h] == s.groups[h]
    ensures OpenAt(s', id, n, h)
  {
    assert r !in s.lanes[id].history.admissions[n].left;
  }

  lemma OutcomeOpen(s: State, id: LaneID, k: nat, gid: GroupID, r: RecordID)
    requires Inv(s) && OpenAt(s, id, k, gid) && r in s.lanes[id].history.admissions[k].left
    requires s.lanes[id].log[k].refs > 1
    ensures OpenAt(SettleOne(s, Outcome(r, Delivered)).0, id, k, gid)
  {
    OneOutcome(s, id, k, gid, r);
    assert GroupOK(s.lanes[id], s.groups[gid]);
    OneFewer(s.lanes[id].history.admissions[k].left, r);
  }

  // ---- all outcomes of one admission --------------------------------------------------------------------------

  /** One more outcome after others of the same call. */
  lemma SettleNext(s: State, outs: seq<Outcome>, o: Outcome)
    ensures var (t, moved) := SettleAll(s, outs);
            SettleAll(s, outs + [o]) == (SettleOne(t, o).0, moved + SettleOne(t, o).1)
  {
    assert (outs + [o])[..|outs|] == outs;
  }

  /** An entry that stays unresolved holds the prefix where it is. */
  lemma StillHeld(before: T.Log<Position>, after: T.Log<Position>, k: nat)
    requires k < |before| == |after| && after == before[k := after[k]] && !before[k].Resolved() && !after[k].Resolved()
    ensures T.Run(after) == T.Run(before)
  {
    T.RunSpec(before);
    T.RunUnique(after, T.Run(before));
  }

  ghost predicate Drained(s: State, s': State, id: LaneID, k: nat) {
    && id in s.lanes && Inv(s') && id in s'.lanes
    && Steady(s.lanes[id], s'.lanes[id]) && OnlyAt(s, s', id, k)
    && k < |s'.lanes[id].log| && s'.lanes[id].log[k].Resolved()
  }

  lemma DrainedOn(s: State, s1: State, s2: State, id: LaneID, k: nat)
    requires id in s.lanes && id in s1.lanes && Steady(s.lanes[id], s1.lanes[id]) && OnlyAt(s, s1, id, k)
    requires Drained(s1, s2, id, k)
    ensures Drained(s, s2, id, k)
  {
    forall n: nat | n < |s.lanes[id].log| && n != k
      ensures Kept(s.lanes[id], s2.lanes[id], n)
    {
      assert Kept(s.lanes[id], s1.lanes[id], n) && Kept(s1.lanes[id], s2.lanes[id], n);
    }
    forall n: nat, gid | n != k
      ensures StaysOpen(s, s2, id, n, gid)
    {
      assert StaysOpen(s, s1, id, n, gid) && StaysOpen(s1, s2, id, n, gid);
    }
  }

  /** What one outcome for a record of an open admission does. */
  lemma DrainStep(s: State, s1: State, id: LaneID, k: nat, gid: GroupID, r: RecordID)
    requires Inv(s) && OpenAt(s, id, k, gid) && r in s.lanes[id].history.admissions[k].left
    requires s1 == SettleOne(s, Outcome(r, Delivered)).0
    ensures Inv(s1) && id in s1.lanes && Steady(s.lanes[id], s1.lanes[id]) && OnlyAt(s, s1, id, k)
    ensures var st, t := s.lanes[id], s1.lanes[id];
            && t.log[k].refs == st.log[k].refs - 1 && t.log == st.log[k := t.log[k]]
            && (t.log[k].refs > 0 ==> OpenAt(s1, id, k, gid))
            && SettleOne(s, Outcome(r, Delivered)).1 == Moved(st, t, id, k)
  {
    OneOutcome(s, id, k, gid, r);
    OutcomeOnly(s, s1, id, k, gid, r);
    if s.lanes[id].log[k].refs > 1 {
      OutcomeOpen(s, id, k, gid, r);
    }
  }

  /** More outcomes of the same call, for all the records of one admission, resolve it and touch no other. */
  lemma {:induction false} DrainEntry(s0: State, outs: seq<Outcome>, s: State, id: LaneID, k: nat, gid: GroupID)
    returns (more: seq<Outcome>)
    requires s == SettleAll(s0, outs).0 && Inv(s) && OpenAt(s, id, k, gid) && !s.lanes[id].log[k].Resolved()
    ensures Drained(s, SettleAll(s0, more).0, id, k)
    ensures SettleAll(s0, more).1 ==
            SettleAll(s0, outs).1 + Moved(s.lanes[id], SettleAll(s0, more).0.lanes[id], id, k)
    decreases s.lanes[id].log[k].refs
  {
    var st := s.lanes[id];
    var r :| r in st.history.admissions[k].left;
    var s1 := SettleOne(s, Outcome(r, Delivered)).0;
    SettleNext(s0, outs, Outcome(r, Delivered));
    more := outs + [Outcome(r, Delivered)];
    DrainStep(s, s1, id, k, gid, r);
    if s1.lanes[id].log[k].refs > 0 {
      StillHeld(st.log, s1.lanes[id].log, k);
      var moved := SettleAll(s0, outs).1;
      assert SettleAll(s0, more).1 == moved by {
        assert moved + [] == moved;
      }
      more := DrainEntry(s0, more, s1, id, k, gid);
      DrainedOn(s, s1, SettleAll(s0, more).0, id, k);
      MovedOn(st, s1.lanes[id], SettleAll(s0, more).0.lanes[id], id, k);
    }
  }

  lemma MovedOn(st: Lane, t: Lane, u: Lane, id: LaneID, k: nat)
    requires Steady(st, t) && k < |st.log| && t.log == st.log[k := t.log[k]]
    requires !st.log[k].Resolved() && !t.log[k].Resolved()
    ensures Moved(st, t, id, k) == [] && Moved(st, u, id, k) == Moved(t, u, id, k)
  {
    StillHeld(st.log, t.log, k);
  }

  // ---- every admission up to one, but for another ---------------------------------------------------------------

  /** Admission k is left alone when those before n, all but i, are settled. */
  predicate Spared(k: nat, i: nat, n: nat) { k >= n || k == i }

  ghost predicate Cleared(s: State, s': State, id: LaneID, i: nat, n: nat) {
    && id in s.lanes && Inv(s') && id in s'.lanes && Steady(s.lanes[id], s'.lanes[id]) && n <= |s.lanes[id].log|
    && var st, t := s.lanes[id], s'.lanes[id];
       && (forall k: nat :: k < n && k != i ==> t.log[k].Resolved())
       && (forall k: nat {:trigger Kept(st, t, k)} :: k < |st.log| && Spared(k, i, n) ==> Kept(st, t, k))
       && (forall k: nat, gid {:trigger StaysOpen(s, s', id, k, gid)} ::
             Spared(k, i, n) ==> StaysOpen(s, s', id, k, gid))
  }

  lemma ClearedMore(s: State, s1: State, id: LaneID, i: nat, n: nat)
    requires Cleared(s, s1, id, i, n) && n < |s.lanes[id].log| && (n == i || s1.lanes[id].log[n].Resolved())
    ensures Cleared(s, s1, id, i, n + 1)
  {}

  lemma ClearedOn(s: State, s1: State, s2: State, id: LaneID, i: nat, n: nat)
    requires Cleared(s, s1, id, i, n) && n < |s.lanes[id].log| && n != i && Drained(s1, s2, id, n)
    ensures Cleared(s, s2, id, i, n + 1)
  {
    var st, t, u := s.lanes[id], s1.lanes[id], s2.lanes[id];
    forall k: nat | k < |st.log| && Spared(k, i, n + 1)
      ensures Kept(st, u, k)
    {
      assert Kept(st, t, k) && Kept(t, u, k);
    }
    forall k: nat | k < n + 1 && k != i
      ensures u.log[k].Resolved()
    {
      assert k < n ==> Kept(t, u, k);
    }
    forall k: nat, gid | Spared(k, i, n + 1)
      ensures StaysOpen(s, s2, id, k, gid)
    {
      assert StaysOpen(s, s1, id, k, gid) && StaysOpen(s1, s2, id, k, gid);
    }
  }

  lemma NothingCleared(s: State, id: LaneID, i: nat)
    requires Inv(s) && id in s.lanes
    ensures Cleared(s, s, id, i, 0)
  {
    assert LaneOK(s.lanes[id]);
  }

  /** A spared admission is as open as it was. */
  lemma SparedOpen(s: State, s1: State, id: LaneID, i: nat, n: nat, k: nat) returns (gid: GroupID)
    requires Cleared(s, s1, id, i, n) && k < |s.lanes[id].log| && Spared(k, i, n)
    requires AllInFlight(s, id) && (!s.lanes[id].log[k].Resolved() || !s1.lanes[id].log[k].Resolved())
    ensures OpenAt(s1, id, k, gid) && !s1.lanes[id].log[k].Resolved()
  {
    assert Kept(s.lanes[id], s1.lanes[id], k);
    assert InFlightAt(s, id, k);
    gid :| OpenAt(s, id, k, gid);
    assert StaysOpen(s, s1, id, k, gid);
  }

  lemma DrainNext(s: State, outs: seq<Outcome>, s1: State, id: LaneID, i: nat, n: nat) returns (more: seq<Outcome>)
    requires s1 == SettleAll(s, outs).0 && Cleared(s, s1, id, i, n) && n < |s.lanes[id].log| && AllInFlight(s, id)
    ensures Cleared(s, SettleAll(s, more).0, id, i, n + 1)
  {
    if n == i || s1.lanes[id].log[n].Resolved() {
      more := outs;
      ClearedMore(s, s1, id, i, n);
    } else {
      var gid := SparedOpen(s, s1, id, i, n, n);
      more := DrainEntry(s, outs, s1, id, n, gid);
      ClearedOn(s, s1, SettleAll(s, more).0, id, i, n);
    }
  }

  lemma {:induction false} DrainUpTo(s: State, id: LaneID, i: nat, n: nat) returns (outs: seq<Outcome>)
    requires Inv(s) && id in s.lanes && n <= |s.lanes[id].log| && AllInFlight(s, id)
    ensures Cleared(s, SettleAll(s, outs).0, id, i, n)
  {
    if n == 0 {
      outs := [];
      NothingCleared(s, id, i);
    } else {
      outs := DrainUpTo(s, id, i, n - 1);
      outs := DrainNext(s, outs, SettleAll(s, outs).0, id, i, n - 1);
    }
  }

  // ---- the leak ------------------------------------------------------------------------------------------------

  /** With admission i settled last, the prefix comes to end at j. */
  lemma LastMoves(st: Lane, t: Lane, u: Lane, id: LaneID, i: nat, j: nat)
    requires |st.log| == |st.history.admissions| && i < j < |st.log| && Reaches(st, i, j)
    requires Steady(st, t) && Steady(t, u) && t.log[i] == st.log[i]
    requires forall k: nat :: k <= j ==> u.log[k].Resolved()
    requires j + 1 < |st.log| ==> u.log[j + 1] == st.log[j + 1]
    ensures T.Run(u.log) == j + 1 && Moved(t, u, id, i) == [Advance(id, st.log[j].payload)]
  {
    T.RunSpec(t.log);
    T.RunUnique(u.log, j + 1);
  }

  /** Outcomes whose last one moves the prefix to j. */
  lemma LeakingOutcomes(s: State, id: LaneID, i: nat, j: nat) returns (outs: seq<Outcome>, before: seq<Advance>)
    requires Inv(s) && id in s.lanes && AllInFlight(s, id)
    requires i < j < |s.lanes[id].log| == |s.lanes[id].history.admissions| && Reaches(s.lanes[id], i, j)
    ensures var (s', moved) := SettleAll(s, outs);
            && Inv(s') && id in s'.lanes && Steady(s.lanes[id], s'.lanes[id])
            && moved == before + [Advance(id, s.lanes[id].log[j].payload)]
  {
    var first := DrainUpTo(s, id, i, j + 1);
    before := SettleAll(s, first).1;
    outs := LeakLast(s, first, SettleAll(s, first).0, id, i, j);
  }

  lemma LeakLast(s: State, outs: seq<Outcome>, s1: State, id: LaneID, i: nat, j: nat) returns (more: seq<Outcome>)
    requires s1 == SettleAll(s, outs).0 && Cleared(s, s1, id, i, j + 1) && AllInFlight(s, id)
    requires i < j < |s.lanes[id].log| == |s.lanes[id].history.admissions| && Reaches(s.lanes[id], i, j)
    ensures var (s', moved) := SettleAll(s, more);
            && Inv(s') && id in s'.lanes && Steady(s.lanes[id], s'.lanes[id])
            && T.Run(s'.lanes[id].log) == j + 1
            && moved == SettleAll(s, outs).1 + [Advance(id, s.lanes[id].log[j].payload)]
  {
    var gid := SparedOpen(s, s1, id, i, j + 1, i);
    more := DrainEntry(s, outs, s1, id, i, gid);
    LeakedRun(s, s1, SettleAll(s, more).0, id, i, j);
  }

  lemma LeakedRun(s: State, s1: State, s2: State, id: LaneID, i: nat, j: nat)
    requires id in s.lanes && i < j < |s.lanes[id].log| == |s.lanes[id].history.admissions|
    requires Reaches(s.lanes[id], i, j) && Cleared(s, s1, id, i, j + 1) && Drained(s1, s2, id, i)
    ensures Steady(s.lanes[id], s2.lanes[id]) && T.Run(s2.lanes[id].log) == j + 1
    ensures Moved(s1.lanes[id], s2.lanes[id], id, i) == [Advance(id, s.lanes[id].log[j].payload)]
  {
    var st, t, u := s.lanes[id], s1.lanes[id], s2.lanes[id];
    forall k: nat | k <= j
      ensures u.log[k].Resolved()
    {
      assert k != i ==> Kept(t, u, k);
    }
    if j + 1 < |st.log| {
      assert Kept(st, t, j + 1) && Kept(t, u, j + 1);
    }
    assert Kept(st, t, i);
    LastMoves(st, t, u, id, i, j);
  }

  lemma {:induction false} PublishSteady(s: State, advances: seq<Advance>, id: LaneID)
    requires id in s.lanes && |s.lanes[id].log| == |s.lanes[id].history.admissions|
    ensures id in PublishAll(s, advances).lanes && Steady(s.lanes[id], PublishAll(s, advances).lanes[id])
  {
    if advances == [] {
    } else {
      PublishSteady(s, advances[..|advances| - 1], id);
    }
  }

  /** The last advance published is what waits to be flushed. */
  lemma PublishLast(s: State, before: seq<Advance>, id: LaneID, p: Position)
    requires id in s.lanes && |s.lanes[id].log| == |s.lanes[id].history.admissions| && p.safe
    ensures var t := PublishAll(s, before + [Advance(id, p)]);
            id in t.lanes && Steady(s.lanes[id], t.lanes[id]) && t.lanes[id].pendingFlush == Some(p)
  {
    var advances := before + [Advance(id, p)];
    assert advances[..|advances| - 1] == before;
    PublishSteady(s, before, id);
  }

  /** The position is newer than what is committed, by either order. */
  predicate BeyondCommitted(st: Lane, p: Position) {
    st.committed.Some? ==>
      && st.committed.value.seqno < p.seqno
      && (Compare(p, st.committed.value).Some? ==> Compare(p, st.committed.value).value > 0)
  }

  /** Only admission j has its position, so nothing above e has it. */
  lemma NotAbove(st: Lane, e: nat, j: nat)
    requires LaneOK(st) && j < |st.log| && st.history.admissions[j].epoch <= e
    ensures !exists k: nat :: F.Above(st, k, e) && st.log[k].payload == st.log[j].payload
  {
    forall k: nat | F.Above(st, k, e)
      ensures st.log[k].payload != st.log[j].payload
    {
      if k < j {
        assert Before(st.log, k, j);
      } else {
        assert Before(st.log, j, k);
      }
    }
  }

  lemma LeakPublished(s: State, outs: seq<Outcome>, before: seq<Advance>, id: LaneID, p: Position)
    requires id in s.lanes && p.safe && SettleAll(s, outs).1 == before + [Advance(id, p)]
    requires id in SettleAll(s, outs).0.lanes && Steady(s.lanes[id], SettleAll(s, outs).0.lanes[id])
    ensures id in Settle(s, outs).lanes && Steady(s.lanes[id], Settle(s, outs).lanes[id])
    ensures Settle(s, outs).lanes[id].pendingFlush == Some(p)
  {
    PublishLast(SettleAll(s, outs).0, before, id, p);
  }

  /** The position is offered for the lane, and nothing admitted above e has it. */
  ghost predicate Leaks(s: State, id: LaneID, p: Position, e: nat) {
    id in Flushable(s).1 && Flushable(s).1[id] == p && !OffersAbove(s, id, e)
  }

  lemma LeakOffered(u: State, st: Lane, id: LaneID, e: nat, j: nat)
    requires Inv(u) && id in u.lanes && Steady(st, u.lanes[id]) && j < |st.log|
    requires st.history.admissions[j].epoch <= e && BeyondCommitted(st, st.log[j].payload)
    requires u.lanes[id].pendingFlush == Some(st.log[j].payload)
    ensures Leaks(SetEpoch(u, id, st.fencedThrough + 1), id, st.log[j].payload, e)
  {
    var lane := u.lanes[id].(epoch := st.fencedThrough + 1);
    assert LaneOK(u.lanes[id]);
    NotAbove(u.lanes[id], e, j);
    assert Offers(lane);
    assert SetEpoch(u, id, st.fencedThrough + 1).lanes[id] == lane;
    assert forall k: nat :: F.Above(lane, k, e) <==> F.Above(u.lanes[id], k, e);
  }

  /**
   In any reachable state, whatever is fenced: if an unresolved admission above the watermark can publish
   a later one made at or below e, beyond what is committed, of a lane whose records are all in flight,
   then outcomes exist after which, the lane being held under a new epoch, that position is offered.
   */
  lemma UnshelteredLeaks(s: State, id: LaneID, e: nat, i: nat, j: nat) returns (outs: seq<Outcome>)
    requires Inv(s) && id in s.lanes && AllInFlight(s, id)
    requires i < j < |s.lanes[id].log| == |s.lanes[id].history.admissions| && !Shelters(s.lanes[id], e, i, j)
    requires BeyondCommitted(s.lanes[id], s.lanes[id].log[j].payload)
    ensures Leaks(SetEpoch(Settle(s, outs), id, s.lanes[id].fencedThrough + 1), id, s.lanes[id].log[j].payload, e)
  {
    var before;
    outs, before := LeakingOutcomes(s, id, i, j);
    LeakSettled(s, outs, before, s.lanes[id], id, e, j);
  }

  lemma LeakSettled(s: State, outs: seq<Outcome>, before: seq<Advance>, st: Lane, id: LaneID, e: nat, j: nat)
    requires Inv(s) && id in s.lanes && st == s.lanes[id] && j < |st.log| == |st.history.admissions|
    requires st.history.admissions[j].epoch <= e && st.log[j].payload.safe && BeyondCommitted(st, st.log[j].payload)
    requires SettleAll(s, outs).1 == before + [Advance(id, st.log[j].payload)]
    requires id in SettleAll(s, outs).0.lanes && Steady(st, SettleAll(s, outs).0.lanes[id])
    ensures Leaks(SetEpoch(Settle(s, outs), id, st.fencedThrough + 1), id, st.log[j].payload, e)
  {
    LeakPublished(s, outs, before, id, st.log[j].payload);
    SettleKeeps(s, outs);
    LeakOffered(Settle(s, outs), st, id, e, j);
  }

  // ---- the exact condition ---------------------------------------------------------------------------------------

  /** A position older than any admission's but the first. */
  const OLDEST := Position(0, 0, None, false)

  /** The lane is told that nothing is committed yet. */
  function Rewound(s: State, id: LaneID): State {
    Committed(s, map[id := OLDEST], [id])
  }

  lemma RewoundLane(s: State, id: LaneID)
    requires id in s.lanes
    ensures var s' := Rewound(s, id);
            && id in s'.lanes && s'.groups == s.groups && s'.byRec == s.byRec
            && var st, t := s.lanes[id], s'.lanes[id];
               SameAdmissions(st, t) && t.fencedThrough == st.fencedThrough && t.committed == Some(OLDEST)
  {
    var order := [id];
    assert order[..0] == [];
    assert Committed(s, map[id := OLDEST], order[..0]) == s;
  }

  lemma SameInFlight(s: State, s': State, id: LaneID)
    requires id in s.lanes && id in s'.lanes && SameAdmissions(s.lanes[id], s'.lanes[id])
    requires s'.groups == s.groups && s'.byRec == s.byRec && AllInFlight(s, id)
    ensures AllInFlight(s', id)
  {
    forall k: nat | k < |s'.lanes[id].log| && !s'.lanes[id].log[k].Resolved()
      ensures InFlightAt(s', id, k)
    {
      assert InFlightAt(s, id, k);
      var gid :| OpenAt(s, id, k, gid);
      assert OpenAt(s', id, k, gid);
    }
  }

  lemma SameUnsheltered(st: Lane, t: Lane, e: nat, i: nat, j: nat)
    requires LaneOK(st) && SameAdmissions(st, t) && t.fencedThrough == st.fencedThrough
    requires t.committed == Some(OLDEST) && i < j < |st.log| && !Shelters(st, e, i, j)
    ensures !Shelters(t, e, i, j) && BeyondCommitted(t, t.log[j].payload)
  {
    assert Before(st.log, i, j);
  }

  lemma RewoundKeeps(s: State, id: LaneID)
    requires Inv(s)
    ensures Inv(Rewound(s, id))
  {
    StepKeeps(s, DoCommitted(map[id := OLDEST], [id]));
  }

  /** The calls that offer the position: commit nothing, settle, hold the lane again. */
  function Calls(id: LaneID, outs: seq<Outcome>, epoch: nat): seq<Op> {
    [DoCommitted(map[id := OLDEST], [id]), DoSettle(outs), DoSetEpoch(id, epoch)]
  }

  lemma CallsRun(s: State, id: LaneID, outs: seq<Outcome>, epoch: nat)
    ensures Exec(s, Calls(id, outs, epoch)) == SetEpoch(Settle(Rewound(s, id), outs), id, epoch)
  {
    var more := Calls(id, outs, epoch);
    assert more[..2][..1] == more[..1] && more[..1][..0] == [];
    assert Exec(s, more[..1][..0]) == s;
    assert Exec(s, more[..1]) == Rewound(s, id);
    assert Exec(s, more[..2]) == Settle(Rewound(s, id), outs);
  }

  lemma LeakingRun(s: State, id: LaneID, e: nat, i: nat, j: nat) returns (more: seq<Op>)
    requires Inv(s) && id in s.lanes && AllInFlight(s, id)
    requires i < j < |s.lanes[id].log| == |s.lanes[id].history.admissions| && !Shelters(s.lanes[id], e, i, j)
    ensures !OffersAbove(Exec(s, more), id, e)
  {
    var s' := Rewound(s, id);
    RewoundLane(s, id);
    RewoundKeeps(s, id);
    SameInFlight(s, s', id);
    SameUnsheltered(s.lanes[id], s'.lanes[id], e, i, j);
    var outs := UnshelteredLeaks(s', id, e, i, j);
    more := Calls(id, outs, s'.lanes[id].fencedThrough + 1);
    CallsRun(s, id, outs, s'.lanes[id].fencedThrough + 1);
  }

  /**
   Over every run that revokes a lane whose records are all in flight, and for every epoch e it has fenced:
   the lane is sheltered if and only if no sequence of calls whatever gets a position offered that was not
   admitted above e.
   */
  lemma ShelterIsExact(ops: seq<Op>, id: LaneID, e: nat)
    requires id in Exec(Initial(), ops).lanes
    requires var s := Revoke(Exec(Initial(), ops), id);
             0 < e <= s.lanes[id].fencedThrough && AllInFlight(s, id)
    ensures var s := Revoke(Exec(Initial(), ops), id);
            Sheltered(s.lanes[id], e) <==> forall more: seq<Op> :: OffersAbove(Exec(s, more), id, e)
  {
    var s := Revoke(Exec(Initial(), ops), id);
    InitialInv();
    ExecKeeps(Initial(), ops);
    RevokeKeeps(Exec(Initial(), ops), id);
    if Sheltered(s.lanes[id], e) {
      forall more: seq<Op>
        ensures OffersAbove(Exec(s, more), id, e)
      {
        OfferedAboveFence(ops, id, e, more);
      }
    } else {
      var i, j := Unsheltered(s, id, e);
      var more := LeakingRun(s, id, e, i, j);
    }
  }

  lemma Unsheltered(s: State, id: LaneID, e: nat) returns (i: nat, j: nat)
    requires Inv(s) && id in s.lanes && !Sheltered(s.lanes[id], e)
    ensures i < j < |s.lanes[id].log| == |s.lanes[id].history.admissions| && !Shelters(s.lanes[id], e, i, j)
  {
    assert LaneOK(s.lanes[id]);
    i, j :| i < j < |s.lanes[id].log| && !Shelters(s.lanes[id], e, i, j);
  }
}
