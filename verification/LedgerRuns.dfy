/** Runs of the ledger, and what every position it offers for flushing guarantees. */
module LedgerRuns {
  import opened Wrappers
  import opened Records
  import opened LedgerSpec
  import opened LedgerInv
  import T = TrackerSpec

  // ---- runs --------------------------------------------------------------------------------------

  /** A call of one public method, with the order in which a loop over the lanes visits them. */
  datatype Op =
    | DoRegister(lane: LaneID, ordering: Ordering, budget: nat, whenFull: WhenFull, dflt: nat)
    | DoSetEpoch(lane: LaneID, epoch: nat)
    | DoFinish(lane: LaneID)
    | DoRequestRetire(lane: LaneID)
    | DoRetirable
    | DoRevoke(lane: LaneID)
    | DoAdmit(batch: Batch)
    | DoSettle(outcomes: seq<Outcome>)
    | DoEmit(order: seq<LaneID>)
    | DoFlushable
    | DoCommitted(positions: map<LaneID, Position>, order: seq<LaneID>)

  function Step(s: State, op: Op): State {
    match op
    case DoRegister(id, ordering, budget, whenFull, dflt) => RegisterLane(s, id, ordering, budget, whenFull, dflt).0
    case DoSetEpoch(id, e) => SetEpoch(s, id, e)
    case DoFinish(id) => FinishLane(s, id)
    case DoRequestRetire(id) => RequestRetire(s, id).0
    case DoRetirable => Retirable(s).0
    case DoRevoke(id) => Revoke(s, id)
    case DoAdmit(b) => Admit(s, b).0
    case DoSettle(outs) => Settle(s, outs)
    case DoEmit(order) => EmitDiscrete(s, order)
    case DoFlushable => Flushable(s).0
    case DoCommitted(m, order) => Committed(s, m, order)
  }

  function Exec(s: State, ops: seq<Op>): State {
    if ops == [] then s else Step(Exec(s, ops[..|ops| - 1]), ops[|ops| - 1])
  }

  lemma StepKeeps(s: State, op: Op)
    requires Inv(s)
    ensures Inv(Step(s, op))
  {
    match op
    case DoRegister(id, ordering, budget, whenFull, dflt) => RegisterKeeps(s, id, ordering, budget, whenFull, dflt);
    case DoSetEpoch(id, e) => SetEpochKeeps(s, id, e);
    case DoFinish(id) => FinishKeeps(s, id);
    case DoRequestRetire(id) => RequestRetireKeeps(s, id);
    case DoRetirable => RetirableKeeps(s);
    case DoRevoke(id) => RevokeKeeps(s, id);
    case DoAdmit(b) => AdmitKeeps(s, b);
    case DoSettle(outs) => SettleKeeps(s, outs);
    case DoEmit(order) => EmitDiscreteKeeps(s, order);
    case DoFlushable => FlushableKeeps(s);
    case DoCommitted(m, order) => CommittedKeeps(s, m, order);
  }

  lemma {:induction false} ExecKeeps(s: State, ops: seq<Op>)
    requires Inv(s)
    ensures Inv(Exec(s, ops))
  {
    if ops == [] {
    } else {
      ExecKeeps(s, ops[..|ops| - 1]);
      StepKeeps(Exec(s, ops[..|ops| - 1]), ops[|ops| - 1]);
    }
  }

  lemma InitialInv()
    ensures Inv(Initial())
  {}

  // ---- what a step does to past admissions ---------------------------------------------------------

  /** Records an operation reports an outcome for. */
  function Gone(op: Op): set<RecordID> {
    if op.DoSettle? then Outs(op.outcomes) else {}
  }

  function Outs(outs: seq<Outcome>): set<RecordID> { set o | o in outs :: o.record }

  /** Admission i of st is still there in t and has lost at most the records in `gone`. */
  predicate GrowsAt(st: Lane, t: Lane, gone: set<RecordID>, i: nat)
    requires i < |st.log| <= |t.log| && |st.log| == |st.history.admissions| && |t.log| == |t.history.admissions|
  {
    && t.log[i].payload == st.log[i].payload
    && t.log[i].weight == st.log[i].weight
    && var a, b := st.history.admissions[i], t.history.admissions[i];
       && b.kind == a.kind && b.records == a.records && b.epoch == a.epoch
       && b.left <= a.left && a.left - gone <= b.left
  }

  predicate Grows(st: Lane, t: Lane, gone: set<RecordID>) {
    && |st.log| == |st.history.admissions| && |t.log| == |t.history.admissions|
    && |st.log| <= |t.log|
    && t.ordering == st.ordering
    && forall i: nat {:trigger GrowsAt(st, t, gone, i)} :: i < |st.log| ==> GrowsAt(st, t, gone, i)
  }

  lemma SameGrows(st: Lane, t: Lane, gone: set<RecordID>)
    requires |st.log| == |st.history.admissions| && SameAdmissions(st, t)
    ensures Grows(st, t, gone)
  {}

  lemma GrowsOn(st: Lane, t: Lane, u: Lane, gone: set<RecordID>, more: set<RecordID>)
    requires Grows(st, t, gone) && Grows(t, u, more)
    ensures Grows(st, u, gone + more)
  {
    forall i: nat | i < |st.log|
      ensures GrowsAt(st, u, gone + more, i)
    {
      assert GrowsAt(st, t, gone, i);
      assert GrowsAt(t, u, more, i);
    }
  }

  lemma AppendGrows(st: Lane, t: Lane, e: T.Entry<Position>, a: Admission)
    requires |st.log| == |st.history.admissions| && t.ordering == st.ordering
    requires t.log == st.log + [e] && t.history.admissions == st.history.admissions + [a]
    ensures Grows(st, t, {})
  {}

  /** The entry and the admission an accepted batch leaves at the end of its lane. */
  predicate Taken(st: Lane, t: Lane, pos: Position, kind: Kind, records: set<RecordID>) {
    && |t.log| == |t.history.admissions| == |st.log| + 1
    && t.log[|st.log|].payload == pos
    && t.history.admissions[|st.log|] == Admission(kind, records, records, st.epoch)
    && t.log[..|st.log|] == st.log
    && t.history.admissions[..|st.log|] == st.history.admissions
    && t.ordering == st.ordering
  }

  lemma TakenGrows(st: Lane, t: Lane, pos: Position, kind: Kind, records: set<RecordID>)
    requires |st.log| == |st.history.admissions| && Taken(st, t, pos, kind, records)
    ensures Grows(st, t, {})
  {
    AppendGrows(st, t, t.log[|st.log|], t.history.admissions[|st.log|]);
  }

  /** The answers after which the batch has an entry in its lane, and of what kind. */
  function KindOf(b: Batch, e: Option<Error>): Option<Kind> {
    if e == None then Some(if b.records == [] then Empty else Carried)
    else if e == Some(WasShed) then Some(Shed)
    else if e == Some(DuplicateGroup) then Some(Refused)
    else None
  }

  lemma OpenTakes(s: State, b: Batch, st: Lane, pos: Position)
    requires b.lane in s.lanes && b.records != [] && |st.log| == |st.history.admissions|
    ensures var (s', e) := OpenGroup(s, st, b, pos);
            && s'.lanes == s.lanes[b.lane := s'.lanes[b.lane]]
            && KindOf(b, e).Some?
            && Taken(st, s'.lanes[b.lane], pos, KindOf(b, e).value, Ids(b.records))
  {
    T.RunTrack(st.log, pos, |b.records|, |b.records|);
  }

  lemma IdleTakes(st: Lane, pos: Position, a: Admission)
    requires |st.log| == |st.history.admissions| && a.left == a.records && a.epoch == st.epoch
    ensures Taken(st, AdmitIdle(st, pos, a), pos, a.kind, a.records)
  {}

  lemma HeldTakes(s: State, b: Batch)
    requires b.lane in s.lanes && |s.lanes[b.lane].log| == |s.lanes[b.lane].history.admissions|
    ensures var (s', e) := AdmitHeld(s, b);
            var t, k := s'.lanes[b.lane], KindOf(b, e);
            && s'.lanes == s.lanes[b.lane := t]
            && (k.Some? ==> Taken(s.lanes[b.lane], t, Stamp(s, b), k.value, Ids(b.records)))
            && (k.None? ==> SameAdmissions(s.lanes[b.lane], t))
  {
    var pos := Stamp(s, b);
    var st := s.lanes[b.lane].(seqno := pos.seqno);
    if b.records == [] {
      IdleTakes(st, pos, Admission(Empty, {}, {}, st.epoch));
    } else if T.Admits(st.log, st.budget, |b.records|) {
      OpenTakes(s, b, st, pos);
    } else {
      IdleTakes(st, pos, Admission(Shed, Ids(b.records), Ids(b.records), st.epoch));
    }
  }

  /** How a batch is admitted, by the answer the caller gets. */
  lemma AdmitTakes(s: State, b: Batch)
    requires Inv(s) && b.lane in s.lanes
    ensures var (s', e) := Admit(s, b);
            && s'.lanes.Keys == s.lanes.Keys
            && (forall id :: id in s.lanes && id != b.lane ==> s'.lanes[id] == s.lanes[id])
            && var t, k := s'.lanes[b.lane], KindOf(b, e);
               && (k.Some? ==> Taken(s.lanes[b.lane], t, Stamp(s, b), k.value, Ids(b.records)))
               && (k.None? ==> SameAdmissions(s.lanes[b.lane], t))
  {
    assert LaneOK(s.lanes[b.lane]);
    HeldTakes(s, b);
  }

  lemma AdmitGrows(s: State, b: Batch, id: LaneID)
    requires Inv(s) && id in s.lanes
    ensures id in Admit(s, b).0.lanes && Grows(s.lanes[id], Admit(s, b).0.lanes[id], {})
  {
    assert LaneOK(s.lanes[id]);
    if b.lane !in s.lanes {
      SameGrows(s.lanes[id], s.lanes[id], {});
    } else {
      AdmitTakes(s, b);
      var (s', e) := Admit(s, b);
      if id != b.lane || KindOf(b, e).None? {
        SameGrows(s.lanes[id], s'.lanes[id], {});
      } else {
        TakenGrows(s.lanes[id], s'.lanes[id], Stamp(s, b), KindOf(b, e).value, Ids(b.records));
      }
    }
  }

  lemma SettledGrows(st: Lane, t: Lane, g: Group, o: Outcome)
    requires LaneOK(st) && GroupOK(st, g) && LaneSettled(st, t, g, o)
    ensures Grows(st, t, {o.record})
  {
    NotedEntry(st, g, o);
  }

  lemma SettleOneGrows(s: State, o: Outcome, id: LaneID)
    requires Inv(s) && id in s.lanes
    ensures id in SettleOne(s, o).0.lanes && Grows(s.lanes[id], SettleOne(s, o).0.lanes[id], {o.record})
  {
    assert LaneOK(s.lanes[id]);
    if Settles(s, o) {
      var g := s.groups[s.byRec[o.record]];
      SettleOneOutcome(s, o);
      if g.lane == id {
        SettledGrows(s.lanes[id], SettleOne(s, o).0.lanes[id], g, o);
      } else {
        SameGrows(s.lanes[id], SettleOne(s, o).0.lanes[id], {o.record});
      }
    } else {
      SameGrows(s.lanes[id], s.lanes[id], {o.record});
    }
  }

  /** An outcome for a record of another lane leaves this one alone, and advances nothing of it. */
  lemma OtherLane(s: State, o: Outcome, id: LaneID)
    requires Settles(s, o) && s.groups[s.byRec[o.record]].lane != id && id in s.lanes
    ensures SettleOne(s, o).0.lanes[id] == s.lanes[id]
    ensures forall i :: 0 <= i < |SettleOne(s, o).1| ==> SettleOne(s, o).1[i].lane != id
  {}

  lemma {:induction false} SettleAllGrows(s: State, outs: seq<Outcome>, id: LaneID)
    requires Inv(s) && id in s.lanes
    ensures id in SettleAll(s, outs).0.lanes && Grows(s.lanes[id], SettleAll(s, outs).0.lanes[id], Outs(outs))
  {
    if outs == [] {
      assert LaneOK(s.lanes[id]);
      SameGrows(s.lanes[id], s.lanes[id], Outs(outs));
    } else {
      var init, o := outs[..|outs| - 1], outs[|outs| - 1];
      var s1 := SettleAll(s, init).0;
      SettleAllGrows(s, init, id);
      SettleAllKeeps(s, init);
      SettleOneGrows(s1, o, id);
      GrowsOn(s.lanes[id], s1.lanes[id], SettleOne(s1, o).0.lanes[id], Outs(init), {o.record});
      assert outs == init + [o];
      assert Outs(outs) == Outs(init) + {o.record};
    }
  }

  lemma {:induction false} PublishAllSame(s: State, advances: seq<Advance>, id: LaneID)
    requires id in s.lanes
    ensures id in PublishAll(s, advances).lanes && SameAdmissions(s.lanes[id], PublishAll(s, advances).lanes[id])
  {
    if advances == [] {
    } else {
      PublishAllSame(s, advances[..|advances| - 1], id);
    }
  }

  lemma SettleGrows(s: State, outs: seq<Outcome>, id: LaneID)
    requires Inv(s) && id in s.lanes
    ensures id in Settle(s, outs).lanes && Grows(s.lanes[id], Settle(s, outs).lanes[id], Outs(outs))
  {
    var (s1, advances) := SettleAll(s, outs);
    SettleAllGrows(s, outs, id);
    PublishAllSame(s1, advances, id);
    SameGrows(s1.lanes[id], Settle(s, outs).lanes[id], {});
    GrowsOn(s.lanes[id], s1.lanes[id], Settle(s, outs).lanes[id], Outs(outs), {});
    assert Outs(outs) + {} == Outs(outs);
  }

  lemma {:induction false} EmitSame(s: State, order: seq<LaneID>, id: LaneID)
    requires id in s.lanes
    ensures id in EmitDiscrete(s, order).lanes && SameAdmissions(s.lanes[id], EmitDiscrete(s, order).lanes[id])
  {
    if order == [] {
    } else {
      EmitSame(s, order[..|order| - 1], id);
    }
  }

  lemma {:induction false} CommittedSameLog(s: State, m: map<LaneID, Position>, order: seq<LaneID>, id: LaneID)
    requires id in s.lanes
    ensures id in Committed(s, m, order).lanes && SameAdmissions(s.lanes[id], Committed(s, m, order).lanes[id])
  {
    if order == [] {
    } else {
      CommittedSameLog(s, m, order[..|order| - 1], id);
    }
  }

  /** Every operation but these three leaves the admissions of a lane as they are. */
  lemma QuietSame(s: State, op: Op, id: LaneID)
    requires id in s.lanes && !op.DoAdmit? && !op.DoSettle?
    ensures id in Step(s, op).lanes && SameAdmissions(s.lanes[id], Step(s, op).lanes[id])
  {
    match op
    case DoEmit(order) => EmitSame(s, order, id);
    case DoCommitted(m, order) => CommittedSameLog(s, m, order, id);
    case _ =>
  }

  lemma StepGrows(s: State, op: Op, id: LaneID)
    requires Inv(s) && id in s.lanes
    ensures id in Step(s, op).lanes && Grows(s.lanes[id], Step(s, op).lanes[id], Gone(op))
  {
    if op.DoAdmit? {
      AdmitGrows(s, op.batch, id);
    } else if op.DoSettle? {
      SettleGrows(s, op.outcomes, id);
    } else {
      assert LaneOK(s.lanes[id]);
      QuietSame(s, op, id);
      SameGrows(s.lanes[id], Step(s, op).lanes[id], {});
    }
  }

  // ---- the admissions of a run ---------------------------------------------------------------------

  function GoneIn(ops: seq<Op>): set<RecordID> {
    if ops == [] then {} else GoneIn(ops[..|ops| - 1]) + Gone(ops[|ops| - 1])
  }

  lemma {:induction false} ExecGrows(s: State, ops: seq<Op>, id: LaneID)
    requires Inv(s) && id in s.lanes
    ensures id in Exec(s, ops).lanes && Grows(s.lanes[id], Exec(s, ops).lanes[id], GoneIn(ops))
  {
    if ops == [] {
      assert LaneOK(s.lanes[id]);
      SameGrows(s.lanes[id], s.lanes[id], GoneIn(ops));
    } else {
      var init, op := ops[..|ops| - 1], ops[|ops| - 1];
      ExecGrows(s, init, id);
      ExecKeeps(s, init);
      StepGrows(Exec(s, init), op, id);
      GrowsOn(s.lanes[id], Exec(s, init).lanes[id], Exec(s, ops).lanes[id], GoneIn(init), Gone(op));
    }
  }

  lemma {:induction false} GoneSettled(ops: seq<Op>, r: RecordID)
    requires r in GoneIn(ops)
    ensures exists i, o :: 0 <= i < |ops| && ops[i].DoSettle? && o in ops[i].outcomes && o.record == r
  {
    var init := ops[..|ops| - 1];
    if r in GoneIn(init) {
      GoneSettled(init, r);
      var i, o :| 0 <= i < |init| && init[i].DoSettle? && o in init[i].outcomes && o.record == r;
      assert ops[i] == init[i];
    } else {
      var o :| o in ops[|ops| - 1].outcomes && o.record == r;
    }
  }

  // ---- what an offered position guarantees -----------------------------------------------------------

  /** Every admission at or before p has lost all its records, or never took any in. */
  predicate SettledThrough(st: Lane, p: Position)
    requires |st.log| == |st.history.admissions|
  {
    forall i: nat :: i < |st.log| && st.log[i].payload.seqno <= p.seqno && st.history.admissions[i].kind.Carried?
      ==> st.history.admissions[i].left == {}
  }

  lemma PrefixSettled(st: Lane, p: Position)
    requires LaneOK(st) && InPrefix(st, p)
    ensures SettledThrough(st, p)
  {
    var k :| 0 <= k < T.Run(st.log) && st.log[k].payload == p;
    T.RunSpec(st.log);
    forall i: nat | i < |st.log| && st.log[i].payload.seqno <= p.seqno && st.history.admissions[i].kind.Carried?
      ensures st.history.admissions[i].left == {}
    {
      assert i > k ==> Before(st.log, k, i);
      assert EntryAt(st.log, st.history.admissions, st.seqno, i);
    }
  }

  /** In any state the ledger can be in, what Flushable offers is safe, settled and new. */
  lemma OfferedIsSettled(s: State, id: LaneID)
    requires Inv(s) && id in Flushable(s).1
    ensures var p, st := Flushable(s).1[id], s.lanes[id];
            && p.safe
            && LaneOK(st)
            && InPrefix(st, p)
            && SettledThrough(st, p)
            && (st.committed.Some? ==> st.committed.value.seqno < p.seqno)
  {
    assert LaneOK(s.lanes[id]);
    PrefixSettled(s.lanes[id], Flushable(s).1[id]);
  }

  lemma AdmissionGone(st: Lane, t: Lane, gone: set<RecordID>, k: nat, p: Position)
    requires Grows(st, t, gone) && k < |st.log| && SettledThrough(t, p)
    requires st.log[k].payload.seqno <= p.seqno && st.history.admissions[k].kind.Carried?
    ensures st.history.admissions[k].left <= gone
  {
    assert GrowsAt(st, t, gone, k);
    forall r | r in st.history.admissions[k].left
      ensures r in gone
    {
      assert r !in t.history.admissions[k].left;
    }
  }

  /** The records a lane's k-th admission was waiting for had outcomes by the time it is offered. */
  lemma OfferedGone(s: State, more: seq<Op>, id: LaneID, k: nat)
    requires Inv(s) && id in s.lanes && k < |s.lanes[id].log| == |s.lanes[id].history.admissions|
    requires s.lanes[id].history.admissions[k].kind.Carried?
    requires id in Flushable(Exec(s, more)).1
    requires s.lanes[id].log[k].payload.seqno <= Flushable(Exec(s, more)).1[id].seqno
    ensures s.lanes[id].history.admissions[k].left <= GoneIn(more)
  {
    var s' := Exec(s, more);
    ExecKeeps(s, more);
    ExecGrows(s, more, id);
    OfferedIsSettled(s', id);
    AdmissionGone(s.lanes[id], s'.lanes[id], GoneIn(more), k, Flushable(s').1[id]);
  }

  lemma OfferedSince(s0: State, b: Batch, more: seq<Op>, r: RecordID)
    requires Inv(s0) && Admit(s0, b).1 == None && r in Ids(b.records)
    requires var s := Exec(Admit(s0, b).0, more);
             b.lane in Flushable(s).1 && Stamp(s0, b).seqno <= Flushable(s).1[b.lane].seqno
    ensures r in GoneIn(more)
  {
    AdmitKeeps(s0, b);
    AdmitTakes(s0, b);
    OfferedGone(Admit(s0, b).0, more, b.lane, |s0.lanes[b.lane].log|);
  }

  /**
   Over every run: whatever the ledger offers for flushing, each record of each batch it took in
   for that lane at or before that position has been given an outcome since.
   */
  lemma OfferedOverRuns(ops: seq<Op>, b: Batch, more: seq<Op>, r: Rec)
    requires var s0 := Exec(Initial(), ops);
             && Admit(s0, b).1 == None
             && r in b.records
             && var s := Exec(Admit(s0, b).0, more);
                b.lane in Flushable(s).1 && Stamp(s0, b).seqno <= Flushable(s).1[b.lane].seqno
    ensures exists i, o :: 0 <= i < |more| && more[i].DoSettle? && o in more[i].outcomes && o.record == r.id
  {
    InitialInv();
    ExecKeeps(Initial(), ops);
    OfferedSince(Exec(Initial(), ops), b, more, r.id);
    GoneSettled(more, r.id);
  }
}
