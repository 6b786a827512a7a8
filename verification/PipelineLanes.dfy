/** One lane of a pipeline: how its log, what was read of it and what became of it hang together. */
module PipelineLanes {
  import opened Wrappers
  import opened Records
  import opened LedgerSpec
  import opened LedgerInv
  import opened LedgerRuns
  import opened PipelineSpec
  import O = LedgerOffers
  import T = TrackerSpec

  /** What the lanes depend on: whose records they have, what is decided, and what is stored. */
  datatype World = World(origin: map<RecordID, Source>, decided: set<Source>, cursors: map<LaneID, int>)

  /** Decided is what has reached its end, or was lost. */
  function WorldOf(p: Pipe): World { World(p.origin, p.terminal + p.lost, p.cursors) }

  function Low(r: Reading, k: nat): int
    requires k <= |r.uptos|
  {
    if k == 0 then r.base else r.uptos[k - 1]
  }

  /** How far the admitted batches reach. */
  function ReadTo(r: Reading): int { Low(r, |r.uptos|) }

  /** The record is still waiting for its outcome, in a batch the lane took in. */
  predicate Waits(a: Admission, origin: map<RecordID, Source>, x: Source) {
    a.kind.Carried? && exists r :: r in a.left && r in origin && origin[r] == x
  }

  predicate CoveredAt(r: Reading, st: Lane, id: LaneID, w: World, k: nat)
    requires k < |r.uptos| == |st.log| == |st.history.admissions|
  {
    && (st.log[k].payload.safe ==> st.log[k].payload.token == r.uptos[k])
    && Low(r, k) <= r.uptos[k]
    && forall x :: x in Span(id, Low(r, k), r.uptos[k]) ==>
         x in w.decided || Waits(st.history.admissions[k], w.origin, x)
  }

  /** Every upstream record in the range of an admission is decided or waits in it. */
  predicate Covered(r: Reading, st: Lane, id: LaneID, w: World) {
    && |r.uptos| == |st.log| == |st.history.admissions|
    && forall k: nat {:trigger CoveredAt(r, st, id, w, k)} :: k < |r.uptos| ==> CoveredAt(r, st, id, w, k)
  }

  /** The offer is the position of an admission that reached at least as far as the last offer. */
  ghost predicate OfferOK(r: Reading, st: Lane) {
    && |r.uptos| == |st.log|
    && r.base <= r.mark <= Low(r, T.Run(st.log))
    && (st.pendingFlush.Some? ==> Ahead(r, st, st.pendingFlush.value))
  }

  ghost predicate Ahead(r: Reading, st: Lane, p: Position)
    requires |r.uptos| == |st.log|
  {
    exists k: nat :: AheadAt(r, st, p, k)
  }

  predicate AheadAt(r: Reading, st: Lane, p: Position, k: nat)
    requires |r.uptos| == |st.log|
  {
    k < T.Run(st.log) && st.log[k].payload == p && r.mark <= r.uptos[k]
  }

  /** Everything the invariant says of one lane. */
  ghost predicate Linked(r: Reading, st: Lane, id: LaneID, w: World) {
    && Covered(r, st, id, w)
    && OfferOK(r, st)
    && AllIn(w.decided, id, r.base)
    && (id in w.cursors ==> w.cursors[id] <= r.mark)
  }

  // ---- the covered prefix ----------------------------------------------------------------------------

  lemma {:induction false} Rising(r: Reading, st: Lane, id: LaneID, w: World, i: nat, j: nat)
    requires Covered(r, st, id, w) && i <= j <= |r.uptos|
    ensures Low(r, i) <= Low(r, j)
    decreases j
  {
    if i >= j {
    } else {
      Rising(r, st, id, w, i, j - 1);
      assert CoveredAt(r, st, id, w, j - 1);
    }
  }

  /** Every offset up to a batch in the prefix is decided. */
  lemma {:induction false} PrefixDecided(r: Reading, st: Lane, id: LaneID, w: World, k: nat)
    requires LaneOK(st) && Covered(r, st, id, w) && AllIn(w.decided, id, r.base) && k <= T.Run(st.log)
    ensures AllIn(w.decided, id, Low(r, k))
  {
    if k == 0 {
    } else {
      PrefixDecided(r, st, id, w, k - 1);
      T.RunSpec(st.log);
      assert EntryAt(st.log, st.history.admissions, st.seqno, k - 1);
      assert CoveredAt(r, st, id, w, k - 1);
      forall o | 0 < o <= Low(r, k)
        ensures Source(id, o) in w.decided
      {
        assert o > Low(r, k - 1) ==> Source(id, o) in Span(id, Low(r, k - 1), r.uptos[k - 1]);
      }
    }
  }

  /** What Flushable hands out is decided and no earlier than what it handed out before. */
  lemma TakenOffer(r: Reading, st: Lane, id: LaneID, w: World)
    requires LaneOK(st) && Linked(r, st, id, w) && Offers(st)
    ensures var token := st.pendingFlush.value.token;
            && r.mark <= token && AllIn(w.decided, id, token)
            && Linked(r.(mark := token), FlushLane(st), id, w)
  {
    var q := st.pendingFlush.value;
    var k: nat :| AheadAt(r, st, q, k);
    assert CoveredAt(r, st, id, w, k);
    PrefixDecided(r, st, id, w, k + 1);
    Rising(r, st, id, w, k + 1, T.Run(st.log));
    CoveredFlush(r, q.token, st, FlushLane(st), id, w);
  }

  lemma CoveredFlush(r: Reading, mark: int, st: Lane, t: Lane, id: LaneID, w: World)
    requires Covered(r, st, id, w) && t.log == st.log && t.history.admissions == st.history.admissions
    ensures Covered(r.(mark := mark), t, id, w)
  {
    forall k: nat | k < |r.uptos|
      ensures CoveredAt(r.(mark := mark), t, id, w, k)
    {
      assert CoveredAt(r, st, id, w, k);
    }
  }

  lemma NotTaken(r: Reading, st: Lane, id: LaneID, w: World)
    requires LaneOK(st) && Linked(r, st, id, w) && !Offers(st)
    ensures Linked(r, FlushLane(st), id, w)
  {
    CoveredFlush(r, r.mark, st, FlushLane(st), id, w);
  }

  // ---- the lane moves on -----------------------------------------------------------------------------

  /** The world knows more: more records by name, more of them decided, the same cursors. */
  predicate Widens(w: World, w': World) {
    && w.decided <= w'.decided && w'.cursors == w.cursors
    && forall x :: x in w.origin ==> x in w'.origin && w'.origin[x] == w.origin[x]
  }

  /** Outcomes take records out of what a batch waits for, and into what is decided. */
  lemma WaitsOn(a: Admission, b: Admission, w: World, w': World, gone: set<RecordID>, x: Source)
    requires b.kind == a.kind && a.left - gone <= b.left && Waits(a, w.origin, x) && Widens(w, w')
    requires forall r :: r in gone && r in w.origin ==> w.origin[r] in w'.decided
    ensures x in w'.decided || Waits(b, w'.origin, x)
  {
    var r :| r in a.left && r in w.origin && w.origin[r] == x;
    assert r in gone || (r in b.left && r in w'.origin && w'.origin[r] == x);
  }

  lemma CoveredAtOn(r: Reading, st: Lane, r': Reading, t: Lane, id: LaneID, w: World, w': World, gone: set<RecordID>,
                    k: nat)
    requires Covered(r, st, id, w) && Grows(st, t, gone) && ReadsOn(r, r') && Widens(w, w') && k < |r.uptos|
    requires |r'.uptos| == |t.log|
    requires forall r :: r in gone && r in w.origin ==> w.origin[r] in w'.decided
    ensures CoveredAt(r', t, id, w', k)
  {
    assert CoveredAt(r, st, id, w, k);
    assert GrowsAt(st, t, gone, k);
    assert Low(r', k) == Low(r, k) && r'.uptos[k] == r.uptos[k];
    forall x | x in Span(id, Low(r, k), r.uptos[k])
      ensures x in w'.decided || Waits(t.history.admissions[k], w'.origin, x)
    {
      if x !in w.decided {
        WaitsOn(st.history.admissions[k], t.history.admissions[k], w, w', gone, x);
      }
    }
  }

  /** The reading goes on; it may have reached further. */
  predicate ReadsOn(r: Reading, r': Reading) {
    r'.base == r.base && r'.mark == r.mark && |r.uptos| <= |r'.uptos| && r'.uptos[..|r.uptos|] == r.uptos
  }

  lemma OfferOn(r: Reading, r': Reading, st: Lane, t: Lane, id: LaneID, w: World, gone: set<RecordID>)
    requires Covered(r', t, id, w) && OfferOK(r, st) && ReadsOn(r, r')
    requires Grows(st, t, gone) && O.NewOffer(st, t)
    ensures OfferOK(r', t)
  {
    Rising(r', t, id, w, T.Run(st.log), T.Run(t.log));
    assert Low(r', T.Run(st.log)) == Low(r, T.Run(st.log));
    if t.pendingFlush.Some? {
      var p := t.pendingFlush.value;
      if t.pendingFlush == st.pendingFlush {
        var k: nat :| AheadAt(r, st, p, k);
        assert GrowsAt(st, t, gone, k);
        assert AheadAt(r', t, p, k);
      } else {
        var k: nat :| O.LateAt(t, p, T.Run(st.log), k);
        Rising(r', t, id, w, T.Run(st.log), k + 1);
        assert AheadAt(r', t, p, k);
      }
    }
  }

  /** No batch joins: the lane's records may have had outcomes, and others' too. */
  lemma LaneOn(r: Reading, st: Lane, t: Lane, id: LaneID, w: World, w': World, gone: set<RecordID>)
    requires Linked(r, st, id, w) && Grows(st, t, gone) && |t.log| == |st.log| && O.NewOffer(st, t) && Widens(w, w')
    requires forall x :: x in gone && x in w.origin ==> w.origin[x] in w'.decided
    ensures Linked(r, t, id, w')
  {
    forall k: nat | k < |r.uptos|
      ensures CoveredAt(r, t, id, w', k)
    {
      CoveredAtOn(r, st, r, t, id, w, w', gone, k);
    }
    OfferOn(r, r, st, t, id, w', gone);
  }

  lemma SameOn(r: Reading, st: Lane, id: LaneID, w: World, w': World)
    requires Linked(r, st, id, w) && Widens(w, w')
    ensures Linked(r, st, id, w')
  {
    assert |st.log| == |st.history.admissions|;
    SameGrows(st, st, {});
    LaneOn(r, st, st, id, w, w', {});
  }

  /** A further cursor is stored, no further than what was offered. */
  lemma StoredOn(r: Reading, st: Lane, id: LaneID, w: World, cursors: map<LaneID, int>)
    requires Linked(r, st, id, w) && (id in cursors ==> cursors[id] <= r.mark)
    ensures Linked(r, st, id, w.(cursors := cursors))
  {
    forall k: nat | k < |r.uptos|
      ensures CoveredAt(r, st, id, w.(cursors := cursors), k)
    {
      assert CoveredAt(r, st, id, w, k);
    }
  }

  /** A lane joins with nothing read, at the place it resumes from. */
  lemma FreshLinked(at: int, id: LaneID, st: Lane, w: World)
    requires st.log == [] && st.history.admissions == [] && st.pendingFlush == None && AllIn(w.decided, id, at)
    requires id in w.cursors ==> w.cursors[id] <= at
    ensures Linked(Reading(at, [], at), st, id, w)
  {}

  // ---- a batch joins -------------------------------------------------------------------------------------

  /** Between the last admitted batch and the edge, everything is decided. */
  predicate GapOK(r: Reading, edge: int, id: LaneID, decided: set<Source>) {
    ReadTo(r) <= edge && Span(id, ReadTo(r), edge) <= decided
  }

  /** A batch in hand: where it ends is where the source is, and what it does not carry is decided. */
  predicate HandOK(m: Made, id: LaneID, place: int, decided: set<Source>) {
    && m.batch.lane == id && m.from <= m.upto == place
    && (m.batch.pos.safe ==> m.batch.pos.token == m.upto)
    && m.offsets.Keys == Ids(m.batch.records)
    && (forall r :: r in m.offsets ==> m.from < m.offsets[r] <= m.upto)
    && Span(id, m.from, m.upto) - Sources(id, m.offsets) <= decided
  }

  lemma LastCovered(r: Reading, m: Made, id: LaneID, w: World, w': World, kind: Kind, a: Admission, x: Source)
    requires HandOK(m, id, m.upto, w.decided) && GapOK(r, m.from, id, w.decided) && w.decided <= w'.decided
    requires a.kind == kind && a.left == Ids(m.batch.records)
    requires kind.Carried? ==> forall y :: y in m.offsets ==> y in w'.origin && w'.origin[y] == Source(id, m.offsets[y])
    requires kind.Shed? ==> Sources(id, m.offsets) <= w'.decided
    requires kind.Carried? || kind.Shed? || (kind.Empty? && m.batch.records == [])
    requires x in Span(id, ReadTo(r), m.upto)
    ensures x in w'.decided || Waits(a, w'.origin, x)
  {
    if x in Span(id, m.from, m.upto) && x in Sources(id, m.offsets) {
      var y :| y in m.offsets && Source(id, m.offsets[y]) == x;
      assert y in Ids(m.batch.records);
    } else {
      assert x in Span(id, ReadTo(r), m.from) || x in Span(id, m.from, m.upto) - Sources(id, m.offsets);
    }
  }

  /** The world after a batch was taken in. */
  predicate TakesIn(m: Made, id: LaneID, kind: Kind, w: World, w': World) {
    && Widens(w, w')
    && (kind.Carried? ==> forall y :: y in m.offsets ==> y in w'.origin && w'.origin[y] == Source(id, m.offsets[y]))
    && (kind.Shed? ==> Sources(id, m.offsets) <= w'.decided)
    && (kind.Carried? || kind.Shed? || (kind.Empty? && m.batch.records == []))
  }

  lemma TookCovered(r: Reading, st: Lane, t: Lane, m: Made, id: LaneID, kind: Kind, pos: Position, w: World, w': World)
    requires Covered(r, st, id, w) && Taken(st, t, pos, kind, Ids(m.batch.records)) && TakesIn(m, id, kind, w, w')
    requires HandOK(m, id, m.upto, w.decided) && GapOK(r, m.from, id, w.decided)
    requires pos.safe ==> pos.token == m.upto
    ensures Covered(r.(uptos := r.uptos + [m.upto]), t, id, w')
  {
    var r' := r.(uptos := r.uptos + [m.upto]);
    TakenGrows(st, t, pos, kind, Ids(m.batch.records));
    forall k: nat | k < |r'.uptos|
      ensures CoveredAt(r', t, id, w', k)
    {
      if k < |r.uptos| {
        CoveredAtOn(r, st, r', t, id, w, w', {}, k);
      } else {
        assert Low(r', k) == ReadTo(r);
        forall x | x in Span(id, Low(r', k), r'.uptos[k])
          ensures x in w'.decided || Waits(t.history.admissions[k], w'.origin, x)
        {
          LastCovered(r, m, id, w, w', kind, t.history.admissions[k], x);
        }
      }
    }
  }

  lemma TookLinked(r: Reading, st: Lane, t: Lane, m: Made, id: LaneID, kind: Kind, pos: Position, w: World, w': World)
    requires Linked(r, st, id, w) && Taken(st, t, pos, kind, Ids(m.batch.records)) && TakesIn(m, id, kind, w, w')
    requires HandOK(m, id, m.upto, w.decided) && GapOK(r, m.from, id, w.decided)
    requires (pos.safe ==> pos.token == m.upto) && O.NewOffer(st, t)
    ensures Linked(r.(uptos := r.uptos + [m.upto]), t, id, w')
  {
    TookCovered(r, st, t, m, id, kind, pos, w, w');
    TakenGrows(st, t, pos, kind, Ids(m.batch.records));
    OfferOn(r, r.(uptos := r.uptos + [m.upto]), st, t, id, w', {});
  }
}
