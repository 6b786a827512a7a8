/** The fence: what a revoked epoch can no longer cause. */
module LedgerFence {
  import opened Wrappers
  import opened Records
  import opened LedgerSpec
  import opened LedgerInv
  import opened LedgerRuns
  import T = TrackerSpec

  // ---- what the next acknowledgement counts ----------------------------------------------------------

  /** The records of the admissions with these tickets. */
  function Counted(log: T.Log<Position>, tickets: seq<nat>): nat {
    if tickets == [] then 0
    else
      var k := tickets[|tickets| - 1];
      Counted(log, tickets[..|tickets| - 1]) + if k < |log| then log[k].weight else 0
  }

  /** All these admissions were made above epoch e. */
  predicate AllAbove(st: Lane, tickets: seq<nat>, e: nat) {
    forall i :: 0 <= i < |tickets| ==> Above(st, tickets[i], e)
  }

  predicate Above(st: Lane, k: nat, e: nat) {
    k < |st.log| && k < |st.history.admissions| && st.history.admissions[k].epoch > e
  }

  /** What the lane would acknowledge next is exactly the records of admissions above its fence. */
  predicate OwedOK(st: Lane) {
    && st.ackRecords == Counted(st.log, st.history.owed)
    && forall i :: 0 <= i < |st.history.owed| ==> Unfenced(st, st.history.owed[i])
  }

  predicate Unfenced(st: Lane, k: nat) {
    k < |st.log| && k < |st.history.admissions| && !st.FencedEpoch(st.history.admissions[k].epoch)
  }

  lemma {:induction false} CountedSame(log: T.Log<Position>, after: T.Log<Position>, tickets: seq<nat>)
    requires |log| <= |after| && forall i :: 0 <= i < |log| ==> after[i].weight == log[i].weight
    requires forall i :: 0 <= i < |tickets| ==> tickets[i] < |log|
    ensures Counted(after, tickets) == Counted(log, tickets)
  {
    if tickets == [] {
    } else {
      CountedSame(log, after, tickets[..|tickets| - 1]);
    }
  }

  lemma CountedAdd(log: T.Log<Position>, tickets: seq<nat>, k: nat)
    requires k < |log|
    ensures Counted(log, tickets + [k]) == Counted(log, tickets) + log[k].weight
  {
    assert (tickets + [k])[..|tickets|] == tickets;
  }

  lemma GrowsWeights(st: Lane, t: Lane, gone: set<RecordID>)
    requires Grows(st, t, gone)
    ensures forall i :: 0 <= i < |st.log| ==> t.log[i].weight == st.log[i].weight
    ensures forall i :: 0 <= i < |st.log| ==> t.history.admissions[i].epoch == st.history.admissions[i].epoch
  {
    forall i: nat | i < |st.log|
      ensures t.log[i].weight == st.log[i].weight && t.history.admissions[i].epoch == st.history.admissions[i].epoch
    {
      assert GrowsAt(st, t, gone, i);
    }
  }

  /** More admissions, or the same with fewer records left, change nothing of what is owed. */
  lemma OwedGrows(st: Lane, t: Lane, gone: set<RecordID>)
    requires OwedOK(st) && Grows(st, t, gone)
    requires t.ackRecords == st.ackRecords && t.history.owed == st.history.owed && t.fencedThrough == st.fencedThrough
    ensures OwedOK(t)
  {
    GrowsWeights(st, t, gone);
    CountedSame(st.log, t.log, st.history.owed);
  }

  lemma OwedCleared(st: Lane)
    requires st.ackRecords == 0 && st.history.owed == []
    ensures OwedOK(st)
  {}

  // ---- the fence in one lane --------------------------------------------------------------------------

  /** A step that is no revocation: the watermark stays, and what is owed stays as it is or is cleared. */
  predicate FenceKept(st: Lane, t: Lane) {
    && t.fencedThrough == st.fencedThrough
    && ((t.ackRecords == st.ackRecords && t.history.owed == st.history.owed) || (t.ackRecords == 0 &&
        t.history.owed == []))
  }

  lemma FenceKeptOwed(st: Lane, t: Lane, gone: set<RecordID>)
    requires OwedOK(st) && Grows(st, t, gone) && FenceKept(st, t)
    ensures OwedOK(t)
  {
    if t.history.owed != [] {
      OwedGrows(st, t, gone);
    } else {
      assert Counted(st.log, st.history.owed) == t.ackRecords || t.ackRecords == 0;
    }
  }

  /** A batch was taken in, or not, without touching the fence or what is owed. */
  predicate FenceUntouched(s: State, s': State, b: Batch)
    requires b.lane in s.lanes
  {
    && b.lane in s'.lanes
    && s'.lanes == s.lanes[b.lane := s'.lanes[b.lane]]
    && FenceKept(s.lanes[b.lane], s'.lanes[b.lane])
    && s'.acks == s.acks
  }

  lemma OpenFence(s: State, st: Lane, b: Batch, pos: Position)
    requires b.lane in s.lanes && FenceKept(s.lanes[b.lane], st) && st.history.owed == s.lanes[b.lane].history.owed
    requires st.ackRecords == s.lanes[b.lane].ackRecords
    ensures FenceUntouched(s, OpenGroup(s, st, b, pos).0, b)
  {}

  lemma HeldFence(s: State, b: Batch)
    requires b.lane in s.lanes
    ensures FenceUntouched(s, AdmitHeld(s, b).0, b)
  {
    var pos := Stamp(s, b);
    var st := s.lanes[b.lane].(seqno := pos.seqno);
    if b.records == [] {
      assert AdmitHeld(s, b).0 == SetLane(s, b.lane, AdmitIdle(st, pos, Admission(Empty, {}, {}, st.epoch)));
    } else if T.Admits(st.log, st.budget, |b.records|) {
      assert AdmitHeld(s, b).0 == OpenGroup(s, st, b, pos).0;
      OpenFence(s, st, b, pos);
    } else if Sheds(st.whenFull) {
      assert AdmitHeld(s, b).0 == SetLane(s, b.lane, ShedBatch(st, b, pos));
    } else {
      assert AdmitHeld(s, b).0 == SetLane(s, b.lane, st);
    }
  }

  lemma AdmitFence(s: State, b: Batch, id: LaneID)
    requires id in s.lanes
    ensures id in Admit(s, b).0.lanes && FenceKept(s.lanes[id], Admit(s, b).0.lanes[id])
  {
    if b.lane in s.lanes {
      HeldFence(s, b);
    }
  }

  lemma AdmitAcks(s: State, b: Batch)
    ensures Admit(s, b).0.acks == s.acks
  {
    if b.lane in s.lanes {
      HeldFence(s, b);
    }
  }

  lemma {:induction false} PublishFence(s: State, advances: seq<Advance>, id: LaneID)
    requires id in s.lanes
    ensures id in PublishAll(s, advances).lanes && FenceKept(s.lanes[id], PublishAll(s, advances).lanes[id])
  {
    if advances == [] {
    } else {
      PublishFence(s, advances[..|advances| - 1], id);
    }
  }

  lemma {:induction false} EmitFence(s: State, order: seq<LaneID>, id: LaneID)
    requires id in s.lanes
    ensures id in EmitDiscrete(s, order).lanes && FenceKept(s.lanes[id], EmitDiscrete(s, order).lanes[id])
  {
    if order == [] {
    } else {
      EmitFence(s, order[..|order| - 1], id);
    }
  }

  lemma {:induction false} CommittedFence(s: State, m: map<LaneID, Position>, order: seq<LaneID>, id: LaneID)
    requires id in s.lanes
    ensures id in Committed(s, m, order).lanes && FenceKept(s.lanes[id], Committed(s, m, order).lanes[id])
  {
    if order == [] {
    } else {
      CommittedFence(s, m, order[..|order| - 1], id);
    }
  }

  lemma OwedAdd(st: Lane, t: Lane, k: nat)
    requires OwedOK(st) && Unfenced(st, k)
    requires t.log == st.log && t.history.admissions == st.history.admissions && t.fencedThrough == st.fencedThrough
    requires t.history.owed == st.history.owed + [k] && t.ackRecords == st.ackRecords + st.log[k].weight
    ensures OwedOK(t)
  {
    CountedAdd(st.log, st.history.owed, k);
    forall i | 0 <= i < |t.history.owed|
      ensures Unfenced(t, t.history.owed[i])
    {
      assert i < |st.history.owed| ==> Unfenced(st, st.history.owed[i]);
    }
  }

  /** A complete group is owed unless its epoch is fenced. */
  lemma ClosedOwed(st: Lane, g: Group)
    requires OwedOK(st) && st.pending > 0
    requires g.ticket < |st.log| == |st.history.admissions|
    requires st.log[g.ticket].weight == g.records && st.history.admissions[g.ticket].epoch == g.epoch
    ensures OwedOK(CloseGroup(st, g)) && CloseGroup(st, g).fencedThrough == st.fencedThrough
  {
    var t := CloseGroup(st, g);
    if st.FencedEpoch(g.epoch) {
      assert SameAdmissions(st, t) && FenceKept(st, t);
      SameGrows(st, t, {});
      FenceKeptOwed(st, t, {});
    } else {
      OwedAdd(st, t, g.ticket);
    }
  }

  lemma LaneAfterOwed(st: Lane, g: Group, o: Outcome)
    requires LaneOK(st) && GroupOK(st, g) && st.pending > 0 && OwedOK(st)
    requires o.record in st.history.admissions[g.ticket].left
    ensures OwedOK(LaneAfter(st, g, o)) && LaneAfter(st, g, o).fencedThrough == st.fencedThrough
  {
    var t := Noted(st, g, o);
    NotedEntry(st, g, o);
    NotedGrows(st, g, o);
    OwedGrows(st, t, {o.record});
    if Complete(SettleGroup(g, o)) {
      ClosedOwed(t, SettleGroup(g, o));
    }
  }

  lemma NotedGrows(st: Lane, g: Group, o: Outcome)
    requires LaneOK(st) && GroupOK(st, g)
    ensures Grows(st, Noted(st, g, o), {o.record})
  {
    NotedEntry(st, g, o);
  }

  lemma SettleOneOwed(s: State, o: Outcome, id: LaneID)
    requires Inv(s) && id in s.lanes && OwedOK(s.lanes[id])
    ensures id in SettleOne(s, o).0.lanes && OwedOK(SettleOne(s, o).0.lanes[id])
    ensures SettleOne(s, o).0.lanes[id].fencedThrough == s.lanes[id].fencedThrough
  {
    if Settles(s, o) {
      var g := s.groups[s.byRec[o.record]];
      if g.lane == id {
        LaneAfterOwed(s.lanes[id], g, o);
      }
    }
  }

  lemma {:induction false} SettleAllOwed(s: State, outs: seq<Outcome>, id: LaneID)
    requires Inv(s) && id in s.lanes && OwedOK(s.lanes[id])
    ensures id in SettleAll(s, outs).0.lanes && OwedOK(SettleAll(s, outs).0.lanes[id])
    ensures SettleAll(s, outs).0.lanes[id].fencedThrough == s.lanes[id].fencedThrough
  {
    if outs == [] {
    } else {
      SettleAllKeeps(s, outs[..|outs| - 1]);
      SettleAllOwed(s, outs[..|outs| - 1], id);
      SettleOneOwed(SettleAll(s, outs[..|outs| - 1]).0, outs[|outs| - 1], id);
    }
  }

  lemma SettleOwed(s: State, outs: seq<Outcome>, id: LaneID)
    requires Inv(s) && id in s.lanes && OwedOK(s.lanes[id])
    ensures id in Settle(s, outs).lanes && OwedOK(Settle(s, outs).lanes[id])
    ensures Settle(s, outs).lanes[id].fencedThrough == s.lanes[id].fencedThrough
  {
    var (s1, advances) := SettleAll(s, outs);
    SettleAllKeeps(s, outs);
    SettleAllOwed(s, outs, id);
    assert LaneOK(s1.lanes[id]);
    PublishFence(s1, advances, id);
    PublishAllSame(s1, advances, id);
    SameGrows(s1.lanes[id], Settle(s, outs).lanes[id], {});
    FenceKeptOwed(s1.lanes[id], Settle(s, outs).lanes[id], {});
  }

  /** Every operation but settling and revoking. */
  lemma QuietFence(s: State, op: Op, id: LaneID)
    requires id in s.lanes && !op.DoSettle? && !op.DoRevoke?
    ensures id in Step(s, op).lanes && FenceKept(s.lanes[id], Step(s, op).lanes[id])
  {
    match op
    case DoAdmit(b) => AdmitFence(s, b, id);
    case DoEmit(order) => EmitFence(s, order, id);
    case DoCommitted(m, order) => CommittedFence(s, m, order, id);
    case _ =>
  }

  lemma StepOwed(s: State, op: Op, id: LaneID)
    requires Inv(s) && id in s.lanes && OwedOK(s.lanes[id])
    ensures id in Step(s, op).lanes && OwedOK(Step(s, op).lanes[id])
    ensures Step(s, op).lanes[id].fencedThrough >= s.lanes[id].fencedThrough
  {
    if op.DoSettle? {
      SettleOwed(s, op.outcomes, id);
    } else if op.DoRevoke? {
      assert Step(s, op) == Revoke(s, op.lane);
    } else {
      QuietFence(s, op, id);
      StepGrows(s, op, id);
      FenceKeptOwed(s.lanes[id], Step(s, op).lanes[id], Gone(op));
    }
  }

  // ---- acknowledgements --------------------------------------------------------------------------------

  /** The acknowledgement was sent above epoch e, and its records are those of admissions above e. */
  predicate AckAbove(st: Lane, ack: Ack, e: nat) {
    && ack.epoch > e
    && ack.records == Counted(st.log, ack.tickets)
    && AllAbove(st, ack.tickets, e)
  }

  lemma AckAboveGrows(st: Lane, t: Lane, gone: set<RecordID>, ack: Ack, e: nat)
    requires AckAbove(st, ack, e) && Grows(st, t, gone)
    ensures AckAbove(t, ack, e)
  {
    GrowsWeights(st, t, gone);
    CountedSame(st.log, t.log, ack.tickets);
  }

  /** A lane that is not silent is above its fence, and so is everything it owes. */
  lemma MadeAbove(id: LaneID, st: Lane, through: Option<Position>, e: nat)
    requires OwedOK(st) && !st.Fenced() && 0 < e <= st.fencedThrough
    ensures AckAbove(st, MakeAck(id, st, through), e)
  {}

  /** Acknowledgements n and later for lane id are all above e. */
  predicate AcksAbove(s: State, id: LaneID, n: nat, e: nat)
    requires id in s.lanes
  {
    forall j :: n <= j < |s.acks| && s.acks[j].lane == id ==> AckAbove(s.lanes[id], s.acks[j], e)
  }

  /** The lane stays above its fence: what an operation must be given and gives back. */
  predicate Guarded(s: State, id: LaneID, n: nat, e: nat) {
    id in s.lanes && OwedOK(s.lanes[id]) && 0 < e <= s.lanes[id].fencedThrough && n <= |s.acks| &&
        AcksAbove(s, id, n, e)
  }

  lemma OneLaneGuarded(s: State, s': State, id: LaneID, at: LaneID, out: seq<Ack>, n: nat, e: nat)
    requires Guarded(s, id, n, e) && at in s.lanes && |s.lanes[id].log| == |s.lanes[id].history.admissions|
    requires at in s'.lanes && s'.lanes == s.lanes[at := s'.lanes[at]] && s'.acks == s.acks + out
    requires SameAdmissions(s.lanes[at], s'.lanes[at]) && FenceKept(s.lanes[at], s'.lanes[at])
    requires forall j :: 0 <= j < |out| ==> out[j].lane == at && (at == id ==> AckAbove(s.lanes[id], out[j], e))
    ensures Guarded(s', id, n, e)
  {
    SameGrows(s.lanes[id], s'.lanes[id], {});
    FenceKeptOwed(s.lanes[id], s'.lanes[id], {});
    forall j | n <= j < |s'.acks| && s'.acks[j].lane == id
      ensures AckAbove(s'.lanes[id], s'.acks[j], e)
    {
      AckAboveGrows(s.lanes[id], s'.lanes[id], {}, s'.acks[j], e);
    }
  }

  lemma EmitOneGuarded(s: State, at: LaneID, id: LaneID, n: nat, e: nat)
    requires Guarded(s, id, n, e) && at in s.lanes && |s.lanes[id].log| == |s.lanes[id].history.admissions|
    ensures var (st, out) := EmitLane(at, s.lanes[at]); Guarded(SetLane(s, at, st).(acks := s.acks + out), id, n, e)
  {
    var (st, out) := EmitLane(at, s.lanes[at]);
    if out != [] && at == id {
      MadeAbove(at, s.lanes[at], None, e);
    }
    OneLaneGuarded(s, SetLane(s, at, st).(acks := s.acks + out), id, at, out, n, e);
  }

  lemma CommitOneGuarded(s: State, at: LaneID, pos: Position, id: LaneID, n: nat, e: nat)
    requires Guarded(s, id, n, e) && at in s.lanes && |s.lanes[id].log| == |s.lanes[id].history.admissions|
    ensures var (st, out) := CommitLane(at, s.lanes[at], pos);
            Guarded(SetLane(s, at, st).(acks := s.acks + out), id, n, e)
  {
    var (st, out) := CommitLane(at, s.lanes[at], pos);
    if out != [] && at == id {
      MadeAbove(at, s.lanes[at], Some(pos), e);
    }
    OneLaneGuarded(s, SetLane(s, at, st).(acks := s.acks + out), id, at, out, n, e);
  }

  lemma {:induction false} EmitGuarded(s: State, order: seq<LaneID>, id: LaneID, n: nat, e: nat)
    requires Inv(s) && Guarded(s, id, n, e)
    ensures Guarded(EmitDiscrete(s, order), id, n, e)
  {
    if order == [] {
    } else {
      var s1, at := EmitDiscrete(s, order[..|order| - 1]), order[|order| - 1];
      EmitGuarded(s, order[..|order| - 1], id, n, e);
      EmitDiscreteKeeps(s, order[..|order| - 1]);
      assert LaneOK(s1.lanes[id]);
      if at in s1.lanes {
        EmitOneGuarded(s1, at, id, n, e);
      }
    }
  }

  lemma {:induction false} CommittedGuarded(s: State, m: map<LaneID, Position>, order: seq<LaneID>, id: LaneID,
                                            n: nat, e: nat)
    requires Inv(s) && Guarded(s, id, n, e)
    ensures Guarded(Committed(s, m, order), id, n, e)
  {
    if order == [] {
    } else {
      var s1, at := Committed(s, m, order[..|order| - 1]), order[|order| - 1];
      CommittedGuarded(s, m, order[..|order| - 1], id, n, e);
      CommittedKeeps(s, m, order[..|order| - 1]);
      assert LaneOK(s1.lanes[id]);
      if at in s1.lanes && at in m {
        CommitOneGuarded(s1, at, m[at], id, n, e);
      }
    }
  }

  lemma {:induction false} PublishAcks(s: State, advances: seq<Advance>)
    ensures PublishAll(s, advances).acks == s.acks
  {
    if advances == [] {
    } else {
      PublishAcks(s, advances[..|advances| - 1]);
    }
  }

  lemma {:induction false} SettleAllAcks(s: State, outs: seq<Outcome>)
    ensures SettleAll(s, outs).0.acks == s.acks
  {
    if outs == [] {
    } else {
      SettleAllAcks(s, outs[..|outs| - 1]);
    }
  }

  /** Only these two operations acknowledge. */
  lemma QuietAcks(s: State, op: Op)
    requires !op.DoEmit? && !op.DoCommitted?
    ensures Step(s, op).acks == s.acks
  {
    match op
    case DoSettle(outs) =>
      SettleAllAcks(s, outs);
      PublishAcks(SettleAll(s, outs).0, SettleAll(s, outs).1);
    case _ =>
  }

  lemma StepGuarded(s: State, op: Op, id: LaneID, n: nat, e: nat)
    requires Inv(s) && Guarded(s, id, n, e)
    ensures Guarded(Step(s, op), id, n, e)
  {
    if op.DoEmit? {
      EmitGuarded(s, op.order, id, n, e);
    } else if op.DoCommitted? {
      CommittedGuarded(s, op.positions, op.order, id, n, e);
    } else {
      var s' := Step(s, op);
      StepOwed(s, op, id);
      StepGrows(s, op, id);
      QuietAcks(s, op);
      forall j | n <= j < |s'.acks| && s'.acks[j].lane == id
        ensures AckAbove(s'.lanes[id], s'.acks[j], e)
      {
        AckAboveGrows(s.lanes[id], s'.lanes[id], Gone(op), s'.acks[j], e);
      }
    }
  }

  lemma {:induction false} ExecGuarded(s: State, ops: seq<Op>, id: LaneID, n: nat, e: nat)
    requires Inv(s) && Guarded(s, id, n, e)
    ensures Guarded(Exec(s, ops), id, n, e)
  {
    if ops == [] {
    } else {
      ExecGuarded(s, ops[..|ops| - 1], id, n, e);
      ExecKeeps(s, ops[..|ops| - 1]);
      StepGuarded(Exec(s, ops[..|ops| - 1]), ops[|ops| - 1], id, n, e);
    }
  }

  /** A lane joins only by being registered. */
  lemma Joins(s: State, op: Op, id: LaneID)
    requires Inv(s) && id !in s.lanes && id in Step(s, op).lanes
    ensures op.DoRegister? && op.lane == id
    ensures Step(s, op).lanes[id] ==
            NewLane(op.ordering, if op.budget < 1 then op.dflt else op.budget, op.whenFull)
  {
    if !op.DoRegister? {
      StepLanes(s, op);
    }
  }

  lemma StepLanes(s: State, op: Op)
    requires !op.DoRegister?
    ensures Step(s, op).lanes.Keys == s.lanes.Keys
  {
    match op
    case DoSettle(outs) =>
      SettleAllLanes(s, outs);
      PublishAllLogs(SettleAll(s, outs).0, SettleAll(s, outs).1);
    case DoEmit(order) => EmitLanes(s, order);
    case DoCommitted(m, order) => CommittedLanes(s, m, order);
    case _ =>
  }

  lemma {:induction false} SettleAllLanes(s: State, outs: seq<Outcome>)
    ensures SettleAll(s, outs).0.lanes.Keys == s.lanes.Keys
  {
    if outs == [] {
    } else {
      SettleAllLanes(s, outs[..|outs| - 1]);
    }
  }

  lemma {:induction false} EmitLanes(s: State, order: seq<LaneID>)
    ensures EmitDiscrete(s, order).lanes.Keys == s.lanes.Keys
  {
    if order == [] {
    } else {
      EmitLanes(s, order[..|order| - 1]);
    }
  }

  lemma {:induction false} CommittedLanes(s: State, m: map<LaneID, Position>, order: seq<LaneID>)
    ensures Committed(s, m, order).lanes.Keys == s.lanes.Keys
  {
    if order == [] {
    } else {
      CommittedLanes(s, m, order[..|order| - 1]);
    }
  }

  lemma RevokedGuards(s: State, id: LaneID, more: seq<Op>)
    requires Inv(s) && id in s.lanes
    ensures Guarded(Exec(Revoke(s, id), more), id, |s.acks|, Max(s.lanes[id].epoch, 1))
  {
    RevokeKeeps(s, id);
    OwedCleared(Revoke(s, id).lanes[id]);
    ExecGuarded(Revoke(s, id), more, id, |s.acks|, Max(s.lanes[id].epoch, 1));
  }

  /**
   Over every run: once a lane is revoked while held under epoch e, every acknowledgement sent for it
   afterwards carries an epoch above e and counts exactly the records of batches admitted above e.
   Epoch zero is fenced as one.
   */
  lemma RevokedStaysFenced(ops: seq<Op>, id: LaneID, more: seq<Op>, j: nat)
    requires id in Exec(Initial(), ops).lanes
    requires var s0 := Exec(Initial(), ops);
             var s := Exec(Revoke(s0, id), more);
             |s0.acks| <= j < |s.acks| && s.acks[j].lane == id
    ensures var s0 := Exec(Initial(), ops);
            var s := Exec(Revoke(s0, id), more);
            id in s.lanes && AckAbove(s.lanes[id], s.acks[j], Max(s0.lanes[id].epoch, 1))
  {
    InitialInv();
    ExecKeeps(Initial(), ops);
    RevokedGuards(Exec(Initial(), ops), id, more);
  }
}
