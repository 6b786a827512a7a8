/** When a position admitted under a revoked epoch is never offered for flushing. */
module LedgerEpochs {
  import opened Wrappers
  import opened Records
  import opened LedgerSpec
  import opened LedgerInv
  import opened LedgerRuns
  import F = LedgerFence
  import T = TrackerSpec

  /** The resolved prefix may come to end at entry j: the entry behind it, if any, is unresolved. */
  predicate Ends(log: T.Log<Position>, j: nat)
    requires j < |log|
  {
    j + 1 == |log| || !log[j + 1].Resolved()
  }

  /**
   An outcome for admission i could take the prefix to the later admission j: the lane has a prefix, i is
   unresolved and above the watermark, and the prefix may come to end at j.
   */
  predicate Reaches(st: Lane, i: nat, j: nat)
    requires i < |st.log| == |st.history.admissions| && j < |st.log|
  {
    && st.ordering != Discrete
    && !st.log[i].Resolved() && !st.FencedEpoch(st.history.admissions[i].epoch)
    && Ends(st.log, j)
  }

  /** And publish it: j is a safe position. */
  predicate Publishes(st: Lane, i: nat, j: nat)
    requires i < |st.log| == |st.history.admissions| && j < |st.log|
  {
    Reaches(st, i, j) && st.log[j].payload.safe
  }

  predicate Shelters(st: Lane, e: nat, i: nat, j: nat)
    requires i < |st.log| == |st.history.admissions| && j < |st.log|
  {
    Publishes(st, i, j) ==> st.history.admissions[j].epoch > e
  }

  /** No admission can publish a later one made at or below epoch e. */
  predicate Sheltered(st: Lane, e: nat) {
    && |st.log| == |st.history.admissions|
    && forall i: nat, j: nat {:trigger Shelters(st, e, i, j)} :: i < j < |st.log| ==> Shelters(st, e, i, j)
  }

  /** Admission i is in the prefix, at p, and was made above epoch e. */
  predicate FreeAt(st: Lane, p: Position, e: nat, i: nat) {
    && i < T.Run(st.log)
    && i < |st.history.admissions|
    && st.log[i].payload == p
    && st.history.admissions[i].epoch > e
  }

  ghost predicate Free(st: Lane, p: Position, e: nat) {
    exists i: nat :: FreeAt(st, p, e, i)
  }

  /** The lane is fenced through e at least, sheltered, and offers nothing from e or below. */
  ghost predicate Guards(st: Lane, e: nat) {
    && 0 < e <= st.fencedThrough
    && Sheltered(st, e)
    && (st.pendingFlush.Some? ==> Free(st, st.pendingFlush.value, e))
  }

  // ---- lanes -------------------------------------------------------------------------------------------

  predicate EpochKept(st: Lane, t: Lane) {
    && SameAdmissions(st, t)
    && st.fencedThrough <= t.fencedThrough
    && (t.pendingFlush == st.pendingFlush || t.pendingFlush == None)
  }

  lemma KeptGuards(st: Lane, t: Lane, e: nat)
    requires Guards(st, e) && EpochKept(st, t)
    ensures Guards(t, e)
  {
    forall i: nat, j: nat | i < j < |t.log|
      ensures Shelters(t, e, i, j)
    {
      assert Shelters(st, e, i, j);
    }
    if t.pendingFlush.Some? {
      var i: nat :| FreeAt(st, st.pendingFlush.value, e, i);
      assert FreeAt(t, st.pendingFlush.value, e, i);
    }
  }

  /** The prefix grew, every admission kept its place and its epoch. */
  lemma FreeGrows(st: Lane, t: Lane, gone: set<RecordID>, p: Position, e: nat)
    requires Free(st, p, e) && Grows(st, t, gone) && T.Run(st.log) <= T.Run(t.log)
    ensures Free(t, p, e)
  {
    var i: nat :| FreeAt(st, p, e, i);
    assert GrowsAt(st, t, gone, i);
    assert FreeAt(t, p, e, i);
  }

  /** A batch taken in above e is sheltered behind anything. */
  lemma TakenSheltered(st: Lane, t: Lane, pos: Position, kind: Kind, records: set<RecordID>, e: nat)
    requires Sheltered(st, e) && st.epoch > e && Taken(st, t, pos, kind, records)
    requires t.fencedThrough == st.fencedThrough && t.ordering == st.ordering
    ensures Sheltered(t, e)
  {
    var n := |st.log|;
    forall i: nat, j: nat | i < j < |t.log|
      ensures Shelters(t, e, i, j)
    {
      assert t.log[i] == t.log[..n][i] && t.history.admissions[i] == t.history.admissions[..n][i];
      if j < n {
        assert Shelters(st, e, i, j);
        assert t.history.admissions[j] == t.history.admissions[..n][j];
      }
    }
  }

  /** A batch takes the last place; only a position with no records can move the prefix at once. */
  lemma TakenGuards(st: Lane, t: Lane, pos: Position, kind: Kind, records: set<RecordID>, e: nat)
    requires Guards(st, e) && !st.Fenced() && Taken(st, t, pos, kind, records) && t.fencedThrough == st.fencedThrough
    requires t.pendingFlush == st.pendingFlush || (t.pendingFlush == Some(pos) && T.Run(t.log) == |t.log|)
    ensures Guards(t, e)
  {
    TakenSheltered(st, t, pos, kind, records, e);
    if t.pendingFlush == st.pendingFlush && st.pendingFlush.Some? {
      TakenGrows(st, t, pos, kind, records);
      assert t.log == st.log + [t.log[|st.log|]];
      RunAppend(st.log, t.log[|st.log|]);
      FreeGrows(st, t, {}, st.pendingFlush.value, e);
    } else if t.pendingFlush.Some? {
      assert FreeAt(t, pos, e, |st.log|);
    }
  }

  // ---- admission ---------------------------------------------------------------------------------------

  predicate IdleMoves(st: Lane, t: Lane, pos: Position) {
    && t.epoch == st.epoch && t.fencedThrough == st.fencedThrough
    && (t.pendingFlush == st.pendingFlush || (t.pendingFlush == Some(pos) && T.Run(t.log) == |t.log|))
  }

  lemma IdleMoved(st: Lane, pos: Position, a: Admission)
    ensures IdleMoves(st, AdmitIdle(st, pos, a), pos)
  {
    T.RunTrackResolved(st.log, pos);
  }

  lemma HeldMoves(s: State, b: Batch)
    requires b.lane in s.lanes
    ensures var s' := AdmitHeld(s, b).0;
            b.lane in s'.lanes && IdleMoves(s.lanes[b.lane], s'.lanes[b.lane], Stamp(s, b))
  {
    var pos := Stamp(s, b);
    var st := s.lanes[b.lane].(seqno := pos.seqno);
    if b.records == [] {
      IdleMoved(st, pos, Admission(Empty, {}, {}, st.epoch));
    } else if !T.Admits(st.log, st.budget, |b.records|) {
      IdleMoved(st, pos, Admission(Shed, Ids(b.records), Ids(b.records), st.epoch));
    }
  }

  lemma NoMove(s: State, b: Batch)
    requires b.lane in s.lanes && KindOf(b, AdmitHeld(s, b).1).None?
    ensures AdmitHeld(s, b).0 == SetLane(s, b.lane, s.lanes[b.lane].(seqno := s.lanes[b.lane].seqno + 1))
  {}

  lemma AdmitGuards(s: State, b: Batch, id: LaneID, e: nat)
    requires id in s.lanes && Guards(s.lanes[id], e)
    ensures id in Admit(s, b).0.lanes && Guards(Admit(s, b).0.lanes[id], e)
  {
    if id == b.lane && Admit(s, b).0 != s {
      var st, t := s.lanes[id], AdmitHeld(s, b).0.lanes[id];
      var k := KindOf(b, AdmitHeld(s, b).1);
      HeldTakes(s, b);
      HeldMoves(s, b);
      if k.Some? {
        TakenGuards(st, t, Stamp(s, b), k.value, Ids(b.records), e);
      } else {
        NoMove(s, b);
        KeptGuards(st, t, e);
      }
    } else if b.lane in s.lanes {
      F.HeldFence(s, b);
    }
  }

  // ---- settlement --------------------------------------------------------------------------------------

  /** An outcome moves the prefix only from its own group on, so to an admission that group shelters. */
  lemma AdvanceFree(st: Lane, t: Lane, g: Group, o: Outcome, e: nat)
    requires LaneOK(st) && GroupOK(st, g) && Sheltered(st, e) && e <= st.fencedThrough
    requires !st.FencedEpoch(g.epoch) && st.ordering != Discrete
    requires SameAdmissions(Noted(st, g, o), t) && T.Advance(st.log, t.log).Some?
    requires T.Advance(st.log, t.log).value.safe && e > 0
    ensures Free(t, T.Advance(st.log, t.log).value, e)
  {
    NotedEntry(st, g, o);
    T.RunDischarge(st.log, g.ticket, 1, o.disposition == Abandoned && Complete(SettleGroup(g, o)));
    T.RunSpec(t.log);
    var k := T.Run(t.log) - 1;
    if k > g.ticket {
      assert Ends(st.log, k);
      assert Shelters(st, e, g.ticket, k);
    }
    assert FreeAt(t, t.log[k].payload, e, k);
  }

  predicate LaneQuiet(st: Lane, t: Lane) {
    t.epoch == st.epoch && t.fencedThrough == st.fencedThrough && t.pendingFlush == st.pendingFlush
  }

  lemma LaneAfterQuiet(st: Lane, g: Group, o: Outcome)
    requires Indexed(st, g)
    ensures LaneQuiet(st, LaneAfter(st, g, o))
  {
    CloseQuiet(Noted(st, g, o), SettleGroup(g, o));
  }

  lemma CloseQuiet(st: Lane, g: Group)
    requires st.pending > 0
    ensures LaneQuiet(st, CloseGroup(st, g))
  {}

  /** Entries only lose references: what was resolved stays so, and nothing is less sheltered. */
  lemma NotedSheltered(st: Lane, t: Lane, g: Group, o: Outcome, e: nat)
    requires LaneOK(st) && GroupOK(st, g) && Sheltered(st, e) && SameAdmissions(Noted(st, g, o), t)
    requires t.fencedThrough == st.fencedThrough && t.ordering == st.ordering
    ensures Sheltered(t, e)
  {
    NotedEntry(st, g, o);
    forall i: nat, j: nat | i < j < |t.log|
      ensures Shelters(t, e, i, j)
    {
      assert Shelters(st, e, i, j);
    }
  }

  lemma LaneAfterGuards(st: Lane, g: Group, o: Outcome, e: nat)
    requires LaneOK(st) && GroupOK(st, g) && st.pending > 0 && Guards(st, e)
    requires o.record in st.history.admissions[g.ticket].left
    ensures var t := LaneAfter(st, g, o);
            Guards(t, e) && Grows(st, t, {o.record}) && T.Run(st.log) <= T.Run(t.log) && LaneQuiet(st, t)
  {
    var t := LaneAfter(st, g, o);
    LaneAfterOK(st, g, o);
    LaneAfterQuiet(st, g, o);
    NotedEntry(st, g, o);
    SettledGrows(st, t, g, o);
    NotedSheltered(st, t, g, o, e);
    if st.pendingFlush.Some? {
      FreeGrows(st, t, {o.record}, st.pendingFlush.value, e);
    }
  }

  /** Every safe advance of lane id waiting to be published is free. */
  ghost predicate AllFree(st: Lane, advances: seq<Advance>, id: LaneID, e: nat) {
    forall i :: 0 <= i < |advances| && advances[i].lane == id && advances[i].pos.safe ==>
      Free(st, advances[i].pos, e)
  }

  lemma AllFreeGrows(st: Lane, t: Lane, gone: set<RecordID>, advances: seq<Advance>, id: LaneID, e: nat)
    requires AllFree(st, advances, id, e) && Grows(st, t, gone) && T.Run(st.log) <= T.Run(t.log)
    ensures AllFree(t, advances, id, e)
  {
    forall i | 0 <= i < |advances| && advances[i].lane == id && advances[i].pos.safe
      ensures Free(t, advances[i].pos, e)
    {
      FreeGrows(st, t, gone, advances[i].pos, e);
    }
  }

  lemma AdvancesFree(st: Lane, g: Group, o: Outcome, id: LaneID, e: nat)
    requires LaneOK(st) && GroupOK(st, g) && st.pending > 0 && Guards(st, e)
    requires o.record in st.history.admissions[g.ticket].left
    ensures AllFree(LaneAfter(st, g, o), AdvancesOf(st, g, o), id, e)
  {
    var t := LaneAfter(st, g, o);
    LaneAfterOK(st, g, o);
    if AdvancesOf(st, g, o) != [] && AdvancesOf(st, g, o)[0].pos.safe {
      AdvanceFree(st, t, g, o, e);
    }
  }

  lemma AllFreeAppend(st: Lane, a: seq<Advance>, b: seq<Advance>, id: LaneID, e: nat)
    requires AllFree(st, a, id, e) && AllFree(st, b, id, e)
    ensures AllFree(st, a + b, id, e)
  {}

  lemma SettleOneGuards(s: State, o: Outcome, id: LaneID, before: seq<Advance>, e: nat)
    requires Inv(s) && id in s.lanes && Guards(s.lanes[id], e) && AllFree(s.lanes[id], before, id, e)
    ensures var (s', a) := SettleOne(s, o);
            id in s'.lanes && Guards(s'.lanes[id], e) && AllFree(s'.lanes[id], before + a, id, e)
  {
    var (s', a) := SettleOne(s, o);
    if Settles(s, o) {
      var g := s.groups[s.byRec[o.record]];
      if g.lane == id {
        LaneAfterGuards(s.lanes[id], g, o, e);
        AllFreeGrows(s.lanes[id], s'.lanes[id], {o.record}, before, id, e);
        AdvancesFree(s.lanes[id], g, o, id, e);
      } else {
        OtherLane(s, o, id);
      }
    }
    AllFreeAppend(s'.lanes[id], before, a, id, e);
  }

  lemma {:induction false} SettleAllGuards(s: State, outs: seq<Outcome>, id: LaneID, e: nat)
    requires Inv(s) && id in s.lanes && Guards(s.lanes[id], e)
    ensures var (s', a) := SettleAll(s, outs);
            id in s'.lanes && Guards(s'.lanes[id], e) && AllFree(s'.lanes[id], a, id, e)
  {
    if outs == [] {
    } else {
      var (s1, a1) := SettleAll(s, outs[..|outs| - 1]);
      SettleAllKeeps(s, outs[..|outs| - 1]);
      SettleAllGuards(s, outs[..|outs| - 1], id, e);
      SettleOneGuards(s1, outs[|outs| - 1], id, a1, e);
    }
  }

  lemma PublishGuards(st: Lane, p: Position, e: nat)
    requires Guards(st, e) && (p.safe ==> Free(st, p, e))
    ensures Guards(Publish(st, Some(p)), e)
  {
    var t := Publish(st, Some(p));
    SameGrows(st, t, {});
    if p.safe {
      FreeGrows(st, t, {}, p, e);
    }
    forall i: nat, j: nat | i < j < |t.log|
      ensures Shelters(t, e, i, j)
    {
      assert Shelters(st, e, i, j);
    }
    if st.pendingFlush.Some? {
      FreeGrows(st, t, {}, st.pendingFlush.value, e);
    }
  }

  lemma PublishAllFree(st: Lane, p: Position, advances: seq<Advance>, id: LaneID, e: nat)
    requires AllFree(st, advances, id, e) && |st.log| == |st.history.admissions|
    ensures AllFree(Publish(st, Some(p)), advances, id, e)
  {
    SameGrows(st, Publish(st, Some(p)), {});
    AllFreeGrows(st, Publish(st, Some(p)), {}, advances, id, e);
  }

  lemma {:induction false} PublishAllGuards(s: State, advances: seq<Advance>, n: nat, id: LaneID, e: nat)
    requires n <= |advances| && id in s.lanes && Guards(s.lanes[id], e) && AllFree(s.lanes[id], advances, id, e)
    ensures var s' := PublishAll(s, advances[..n]);
            id in s'.lanes && Guards(s'.lanes[id], e) && AllFree(s'.lanes[id], advances, id, e)
  {
    if n == 0 {
    } else {
      PublishAllGuards(s, advances, n - 1, id, e);
      var s1, a := PublishAll(s, advances[..n - 1]), advances[n - 1];
      assert advances[..n][..n - 1] == advances[..n - 1];
      if a.lane == id {
        PublishGuards(s1.lanes[id], a.pos, e);
        PublishAllFree(s1.lanes[id], a.pos, advances, id, e);
      }
    }
  }

  lemma SettleGuards(s: State, outs: seq<Outcome>, id: LaneID, e: nat)
    requires Inv(s) && id in s.lanes && Guards(s.lanes[id], e)
    ensures id in Settle(s, outs).lanes && Guards(Settle(s, outs).lanes[id], e)
  {
    var (s1, advances) := SettleAll(s, outs);
    SettleAllGuards(s, outs, id, e);
    PublishAllGuards(s1, advances, |advances|, id, e);
    assert advances[..|advances|] == advances;
  }

  // ---- runs --------------------------------------------------------------------------------------------

  lemma {:induction false} EmitKept(s: State, order: seq<LaneID>, id: LaneID)
    requires id in s.lanes
    ensures id in EmitDiscrete(s, order).lanes && EpochKept(s.lanes[id], EmitDiscrete(s, order).lanes[id])
  {
    if order == [] {
    } else {
      EmitKept(s, order[..|order| - 1], id);
    }
  }

  lemma {:induction false} CommittedKept(s: State, m: map<LaneID, Position>, order: seq<LaneID>, id: LaneID)
    requires id in s.lanes
    ensures id in Committed(s, m, order).lanes && EpochKept(s.lanes[id], Committed(s, m, order).lanes[id])
  {
    if order == [] {
    } else {
      CommittedKept(s, m, order[..|order| - 1], id);
    }
  }

  lemma QuietKept(s: State, op: Op, id: LaneID)
    requires id in s.lanes && !op.DoAdmit? && !op.DoSettle?
    ensures id in Step(s, op).lanes && EpochKept(s.lanes[id], Step(s, op).lanes[id])
  {
    match op
    case DoEmit(order) => EmitKept(s, order, id);
    case DoCommitted(m, order) => CommittedKept(s, m, order, id);
    case _ =>
  }

  lemma StepGuards(s: State, op: Op, id: LaneID, e: nat)
    requires Inv(s) && id in s.lanes && Guards(s.lanes[id], e)
    ensures id in Step(s, op).lanes && Guards(Step(s, op).lanes[id], e)
  {
    if op.DoAdmit? {
      AdmitGuards(s, op.batch, id, e);
    } else if op.DoSettle? {
      SettleGuards(s, op.outcomes, id, e);
    } else {
      QuietKept(s, op, id);
      KeptGuards(s.lanes[id], Step(s, op).lanes[id], e);
    }
  }

  lemma {:induction false} ExecGuards(s: State, ops: seq<Op>, id: LaneID, e: nat)
    requires Inv(s) && id in s.lanes && Guards(s.lanes[id], e)
    ensures id in Exec(s, ops).lanes && Guards(Exec(s, ops).lanes[id], e)
  {
    if ops == [] {
    } else {
      ExecKeeps(s, ops[..|ops| - 1]);
      ExecGuards(s, ops[..|ops| - 1], id, e);
      StepGuards(Exec(s, ops[..|ops| - 1]), ops[|ops| - 1], id, e);
    }
  }

  lemma RevokeGuards(s: State, id: LaneID, e: nat)
    requires id in s.lanes && 0 < e <= Revoke(s, id).lanes[id].fencedThrough && Sheltered(Revoke(s, id).lanes[id], e)
    ensures Guards(Revoke(s, id).lanes[id], e)
  {}

  lemma OfferedAbove(st: Lane, p: Position, e: nat)
    requires Guards(st, e) && st.pendingFlush == Some(p)
    ensures exists i: nat :: F.Above(st, i, e) && st.log[i].payload == p
  {
    var i: nat :| FreeAt(st, p, e, i);
    assert F.Above(st, i, e);
  }

  /** The position last offered for the lane belongs to an admission made above epoch e. */
  ghost predicate OffersAbove(s: State, id: LaneID, e: nat) {
    id in Flushable(s).1 ==>
      exists i: nat :: F.Above(s.lanes[id], i, e) && s.lanes[id].log[i].payload == Flushable(s).1[id]
  }

  /**
   Over every run, whatever happens to epochs afterwards, and for every epoch e a revocation has fenced:
   if, when the lane is revoked, no unresolved admission above the watermark can publish a later one made
   at or below e, then every position offered for the lane from then on belongs to a batch admitted above e.
   */
  lemma OfferedAboveFence(ops: seq<Op>, id: LaneID, e: nat, more: seq<Op>)
    requires id in Exec(Initial(), ops).lanes
    requires var st := Revoke(Exec(Initial(), ops), id).lanes[id]; 0 < e <= st.fencedThrough && Sheltered(st, e)
    ensures OffersAbove(Exec(Revoke(Exec(Initial(), ops), id), more), id, e)
  {
    InitialInv();
    ExecKeeps(Initial(), ops);
    OfferedSinceRevoke(Exec(Initial(), ops), id, e, more);
  }

  lemma OfferedSinceRevoke(s0: State, id: LaneID, e: nat, more: seq<Op>)
    requires Inv(s0) && id in s0.lanes
    requires var st := Revoke(s0, id).lanes[id]; 0 < e <= st.fencedThrough && Sheltered(st, e)
    ensures OffersAbove(Exec(Revoke(s0, id), more), id, e)
  {
    var s1 := Revoke(s0, id);
    RevokeKeeps(s0, id);
    RevokeGuards(s0, id, e);
    ExecGuards(s1, more, id, e);
    var s := Exec(s1, more);
    if id in Flushable(s).1 {
      OfferedAbove(s.lanes[id], Flushable(s).1[id], e);
    }
  }

  // ---- epochs that never decrease shelter ----------------------------------------------------------------

  /** A lane's epoch does not decrease. */
  predicate Raises(s: State, op: Op) {
    op.DoSetEpoch? && op.lane in s.lanes ==> s.lanes[op.lane].epoch <= op.epoch
  }

  predicate AllRaise(s: State, ops: seq<Op>) {
    ops == [] || (AllRaise(s, ops[..|ops| - 1]) && Raises(Exec(s, ops[..|ops| - 1]), ops[|ops| - 1]))
  }

  predicate EpochLe(st: Lane, i: nat, j: nat)
    requires i < |st.history.admissions| && j < |st.history.admissions|
  {
    st.history.admissions[i].epoch <= st.history.admissions[j].epoch
  }

  /** Later admissions are held under later epochs, and the lane under the latest. */
  predicate EpochsUp(st: Lane) {
    && |st.log| == |st.history.admissions|
    && (forall i: nat, j: nat {:trigger EpochLe(st, i, j)} :: i <= j < |st.log| ==> EpochLe(st, i, j))
    && (forall i :: 0 <= i < |st.log| ==> st.history.admissions[i].epoch <= st.epoch)
  }

  lemma UpShelters(st: Lane, e: nat)
    requires EpochsUp(st) && 0 < e <= st.fencedThrough
    ensures Sheltered(st, e)
  {
    forall i: nat, j: nat | i < j < |st.log|
      ensures Shelters(st, e, i, j)
    {
      assert EpochLe(st, i, j);
    }
  }

  lemma TakenUp(st: Lane, t: Lane, pos: Position, kind: Kind, records: set<RecordID>)
    requires EpochsUp(st) && Taken(st, t, pos, kind, records) && t.epoch == st.epoch
    ensures EpochsUp(t)
  {
    var n := |st.log|;
    forall i: nat, j: nat | i <= j < |t.log|
      ensures EpochLe(t, i, j)
    {
      assert i < n ==> t.history.admissions[i] == t.history.admissions[..n][i];
      assert j < n ==> t.history.admissions[j] == t.history.admissions[..n][j] && EpochLe(st, i, j);
    }
    forall i | 0 <= i < |t.log|
      ensures t.history.admissions[i].epoch <= t.epoch
    {
      assert i < n ==> t.history.admissions[i] == t.history.admissions[..n][i];
    }
  }

  lemma GrownUp(st: Lane, t: Lane, gone: set<RecordID>)
    requires EpochsUp(st) && Grows(st, t, gone) && |t.log| == |st.log| && st.epoch <= t.epoch
    ensures EpochsUp(t)
  {
    F.GrowsWeights(st, t, gone);
    forall i: nat, j: nat | i <= j < |t.log|
      ensures EpochLe(t, i, j)
    {
      assert EpochLe(st, i, j);
    }
  }

  lemma AdmitUp(s: State, b: Batch, id: LaneID)
    requires id in s.lanes && EpochsUp(s.lanes[id])
    ensures id in Admit(s, b).0.lanes && EpochsUp(Admit(s, b).0.lanes[id])
  {
    if id == b.lane && Admit(s, b).0 != s {
      var st, t := s.lanes[id], AdmitHeld(s, b).0.lanes[id];
      var k := KindOf(b, AdmitHeld(s, b).1);
      HeldTakes(s, b);
      HeldMoves(s, b);
      if k.Some? {
        TakenUp(st, t, Stamp(s, b), k.value, Ids(b.records));
      } else {
        SameGrows(st, t, {});
        GrownUp(st, t, {});
      }
    } else if b.lane in s.lanes {
      F.HeldFence(s, b);
    }
  }

  lemma {:induction false} SettleAllLane(s: State, outs: seq<Outcome>, id: LaneID)
    requires id in s.lanes
    ensures var s' := SettleAll(s, outs).0;
            && id in s'.lanes && s'.lanes[id].epoch == s.lanes[id].epoch
            && |s'.lanes[id].log| == |s.lanes[id].log|
  {
    if outs == [] {
    } else {
      SettleAllLane(s, outs[..|outs| - 1], id);
      SettleOneLane(SettleAll(s, outs[..|outs| - 1]).0, outs[|outs| - 1], id);
    }
  }

  lemma SettleOneLane(s: State, o: Outcome, id: LaneID)
    requires id in s.lanes
    ensures var s' := SettleOne(s, o).0;
            && id in s'.lanes && s'.lanes[id].epoch == s.lanes[id].epoch
            && |s'.lanes[id].log| == |s.lanes[id].log|
  {}

  lemma {:induction false} PublishLane(s: State, advances: seq<Advance>, id: LaneID)
    requires id in s.lanes
    ensures var s' := PublishAll(s, advances);
            && id in s'.lanes && s'.lanes[id].epoch == s.lanes[id].epoch
            && |s'.lanes[id].log| == |s.lanes[id].log|
  {
    if advances == [] {
    } else {
      PublishLane(s, advances[..|advances| - 1], id);
    }
  }

  lemma {:induction false} EmitEpoch(s: State, order: seq<LaneID>, id: LaneID)
    requires id in s.lanes
    ensures id in EmitDiscrete(s, order).lanes && EmitDiscrete(s, order).lanes[id].epoch == s.lanes[id].epoch
  {
    if order == [] {
    } else {
      EmitEpoch(s, order[..|order| - 1], id);
    }
  }

  lemma {:induction false} CommittedEpoch(s: State, m: map<LaneID, Position>, order: seq<LaneID>, id: LaneID)
    requires id in s.lanes
    ensures id in Committed(s, m, order).lanes && Committed(s, m, order).lanes[id].epoch == s.lanes[id].epoch
  {
    if order == [] {
    } else {
      CommittedEpoch(s, m, order[..|order| - 1], id);
    }
  }

  lemma QuietEpoch(s: State, op: Op, id: LaneID)
    requires id in s.lanes && Raises(s, op) && !op.DoAdmit? && !op.DoSettle?
    ensures id in Step(s, op).lanes && s.lanes[id].epoch <= Step(s, op).lanes[id].epoch
  {
    match op
    case DoEmit(order) => EmitEpoch(s, order, id);
    case DoCommitted(m, order) => CommittedEpoch(s, m, order, id);
    case _ =>
  }

  lemma StepUp(s: State, op: Op, id: LaneID)
    requires Inv(s) && id in s.lanes && EpochsUp(s.lanes[id]) && Raises(s, op)
    ensures id in Step(s, op).lanes && EpochsUp(Step(s, op).lanes[id])
  {
    if op.DoAdmit? {
      AdmitUp(s, op.batch, id);
    } else {
      StepGrows(s, op, id);
      if op.DoSettle? {
        SettleAllLane(s, op.outcomes, id);
        PublishLane(SettleAll(s, op.outcomes).0, SettleAll(s, op.outcomes).1, id);
      } else {
        QuietSame(s, op, id);
        QuietEpoch(s, op, id);
      }
      GrownUp(s.lanes[id], Step(s, op).lanes[id], Gone(op));
    }
  }

  lemma {:induction false} ExecUp(s: State, ops: seq<Op>, id: LaneID)
    requires Inv(s) && AllRaise(s, ops) && id !in s.lanes && id in Exec(s, ops).lanes
    ensures EpochsUp(Exec(s, ops).lanes[id])
  {
    var s1, op := Exec(s, ops[..|ops| - 1]), ops[|ops| - 1];
    ExecKeeps(s, ops[..|ops| - 1]);
    if id in s1.lanes {
      ExecUp(s, ops[..|ops| - 1], id);
      StepUp(s1, op, id);
    } else {
      F.Joins(s1, op, id);
    }
  }

  /** So the fence holds whenever no epoch decreased before the revocation, whatever comes after it. */
  lemma RisingEpochsShelter(ops: seq<Op>, id: LaneID, e: nat)
    requires AllRaise(Initial(), ops) && id in Exec(Initial(), ops).lanes
    requires 0 < e <= Revoke(Exec(Initial(), ops), id).lanes[id].fencedThrough
    ensures Sheltered(Revoke(Exec(Initial(), ops), id).lanes[id], e)
  {
    InitialInv();
    ExecUp(Initial(), ops, id);
    var st, t := Exec(Initial(), ops).lanes[id], Revoke(Exec(Initial(), ops), id).lanes[id];
    ExecKeeps(Initial(), ops);
    SameGrows(st, t, {});
    GrownUp(st, t, {});
    UpShelters(t, e);
  }

  /** A batch of one record under epoch 5, then an idle position under epoch 1 waiting behind it. */
  predicate Waits(s: State, r: Rec, safe: Position) {
    && 0 in s.lanes
    && var st := s.lanes[0];
       && st.log == [T.Entry(safe.(seqno := 1), 1, 1, false), T.Entry(safe.(seqno := 2), 0, 0, false)]
       && st.history.admissions == [Admission(Carried, {r.id}, {r.id}, 5), Admission(Empty, {}, {}, 1)]
       && st.epoch == 1 && st.fencedThrough <= 1 && st.ordering == Prefix && st.pending == 1
       && st.committed == None
       && s.byRec == map[r.id := 0]
       && 0 in s.groups
       && var g := s.groups[0];
          g.lane == 0 && g.ticket == 0 && g.epoch == 5 && g.refs == 1 && g.settled == 0
  }

  /** Position p was admitted under epoch e. */
  predicate AdmittedUnder(st: Lane, p: Position, e: nat) {
    exists i :: 0 <= i < |st.log| && i < |st.history.admissions| && st.log[i].payload == p &&
        st.history.admissions[i].epoch == e
  }

  /**
   It fails without that shelter: a batch admitted under epoch 5 holds back an idle position
   admitted under epoch 1, the lane is revoked at 1, and the batch's outcome then publishes the
   idle position, which is offered as soon as the lane is held under 5 again.
   */
  lemma DecreasingEpochLeaks(r: Rec, safe: Position)
    requires r.lane == 0 && safe.safe
    ensures var s0 := Prelude(r, safe);
            var s := Step(Step(Revoke(s0, 0), DoSettle([Outcome(r.id, Delivered)])), DoSetEpoch(0, 5));
            && 0 in s0.lanes && s0.lanes[0].epoch == 1
            && 0 in Flushable(s).1
            && AdmittedUnder(s.lanes[0], Flushable(s).1[0], 1)
  {
    PreludeWaits(r, safe);
    LeakFrom(Revoke(Prelude(r, safe), 0), r, safe, Outcome(r.id, Delivered));
  }

  function Prelude(r: Rec, safe: Position): State {
    Step(FirstBatch(r, safe), DoAdmit(Batch(0, 1, [], safe)))
  }

  /** The batch under epoch 5 is in, and the lane is held under 1. */
  predicate Holding(s: State, r: Rec, safe: Position) {
    && 0 in s.lanes
    && var st := s.lanes[0];
       && st.log == [T.Entry(safe.(seqno := 1), 1, 1, false)]
       && st.history.admissions == [Admission(Carried, {r.id}, {r.id}, 5)]
       && st.epoch == 1 && st.fencedThrough <= 0 && st.ordering == Prefix && st.pending == 1
       && st.committed == None && st.seqno == 1
       && s.byRec == map[r.id := 0]
       && 0 in s.groups && 1 !in s.groups
       && var g := s.groups[0];
          g.lane == 0 && g.ticket == 0 && g.epoch == 5 && g.refs == 1 && g.settled == 0
  }

  function FirstBatch(r: Rec, safe: Position): State {
    var s := Step(Step(Initial(), DoRegister(0, Prefix, 10, Block, 10)), DoSetEpoch(0, 5));
    Step(Step(s, DoAdmit(Batch(0, 0, [r], safe))), DoSetEpoch(0, 1))
  }

  lemma FirstBatchHolds(r: Rec, safe: Position)
    requires r.lane == 0
    ensures Holding(FirstBatch(r, safe), r, safe)
  {
    var s := Step(Step(Initial(), DoRegister(0, Prefix, 10, Block, 10)), DoSetEpoch(0, 5));
    var st := s.lanes[0];
    assert st.log == [] && st.history.admissions == [];
    assert Ids([r]) == {r.id};
  }

  lemma IdleWaits(s: State, r: Rec, safe: Position)
    requires Holding(s, r, safe)
    ensures Waits(Step(s, DoAdmit(Batch(0, 1, [], safe))), r, safe)
  {
    T.RunUnique(s.lanes[0].log, 0);
    T.RunTrackResolved(s.lanes[0].log, safe.(seqno := 2));
    var none: seq<Rec> := [];
    assert Ids(none) == {};
  }

  lemma PreludeWaits(r: Rec, safe: Position)
    requires r.lane == 0 && safe.safe
    ensures Waits(Prelude(r, safe), r, safe)
  {
    FirstBatchHolds(r, safe);
    IdleWaits(FirstBatch(r, safe), r, safe);
  }

  lemma SettleSingle(s: State, outs: seq<Outcome>, a: Advance)
    requires |outs| == 1 && SettleOne(s, outs[0]).1 == [a] && a.lane in SettleOne(s, outs[0]).0.lanes
    ensures var s1 := SettleOne(s, outs[0]).0;
            Settle(s, outs) == SetLane(s1, a.lane, Publish(s1.lanes[a.lane], Some(a.pos)))
  {
    var advances := [a];
    assert outs[..0] == [] && advances[..0] == [];
    assert SettleAll(s, outs[..0]).0 == s;
    assert SettleAll(s, outs).1 == advances;
    var s1 := SettleOne(s, outs[0]).0;
    assert PublishAll(s1, advances[..0]) == s1;
  }

  lemma LeakFrom(s: State, r: Rec, safe: Position, o: Outcome)
    requires Waits(s, r, safe) && safe.safe && o == Outcome(r.id, Delivered)
    ensures var s' := Step(Step(s, DoSettle([o])), DoSetEpoch(0, 5));
            0 in Flushable(s').1 && AdmittedUnder(s'.lanes[0], Flushable(s').1[0], 1)
  {
    var t := LaneAfter(s.lanes[0], s.groups[0], o);
    LeakedLane(s.lanes[0], s.groups[0], r, safe, o);
    var a := Advance(0, safe.(seqno := 2));
    SettleSingle(s, [o], a);
    var u := Publish(t, Some(a.pos)).(epoch := 5);
    assert Step(Step(s, DoSettle([o])), DoSetEpoch(0, 5)).lanes[0] == u;
    assert u.log[1].payload == a.pos && u.history.admissions[1].epoch == 1;
  }

  lemma LeakedLane(st: Lane, g: Group, r: Rec, safe: Position, o: Outcome)
    requires st.log == [T.Entry(safe.(seqno := 1), 1, 1, false), T.Entry(safe.(seqno := 2), 0, 0, false)]
    requires st.history.admissions == [Admission(Carried, {r.id}, {r.id}, 5), Admission(Empty, {}, {}, 1)]
    requires st.fencedThrough <= 1 && st.ordering == Prefix && st.pending == 1 && st.committed == None
    requires g.lane == 0 && g.ticket == 0 && g.epoch == 5 && g.refs == 1 && g.settled == 0
    requires o == Outcome(r.id, Delivered)
    ensures var t := LaneAfter(st, g, o);
            && t.log == [T.Entry(safe.(seqno := 1), 1, 0, false), T.Entry(safe.(seqno := 2), 0, 0, false)]
            && t.fencedThrough <= 1 && t.committed == None
            && |t.history.admissions| == 2 && t.history.admissions[1].epoch == 1
            && AdvancesOf(st, g, o) == [Advance(0, safe.(seqno := 2))]
  {
    T.RunUnique(st.log, 0);
    var l := Noted(st, g, o).log;
    assert l == st.log[0 := st.log[0].(refs := 0)];
    T.RunUnique(l, 2);
  }
}
