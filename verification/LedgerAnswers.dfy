/** What the ledger answers to each call, and what each call makes of a lane, by the fields it reads. */
module LedgerAnswers {
  import opened Wrappers
  import opened Records
  import opened LedgerSpec
  import opened LedgerInv
  import opened LedgerRuns
  import T = TrackerSpec

  // ---- admission ---------------------------------------------------------------------------------------

  /** A revocation covered the epoch the lane is held under. */
  predicate HeldBack(st: Lane) { st.fencedThrough > 0 && st.epoch <= st.fencedThrough }

  predicate Foreign(b: Batch) { exists r :: r in b.records && r.lane != b.lane }

  /** The batch has records, something is outstanding, and the two together exceed the budget. */
  ghost predicate Overfull(st: Lane, b: Batch) {
    b.records != [] && T.Full(st.log, st.budget, |b.records|)
  }

  /** The answer, by what the batch and the lane are like. */
  ghost function AnswerTo(s: State, b: Batch): Option<Error> {
    if b.lane !in s.lanes then Some(Unregistered)
    else
      var st := s.lanes[b.lane];
      if HeldBack(st) then Some(FencedOff)
      else if Foreign(b) then Some(Mislabelled)
      else if Overfull(st, b) then
        match st.whenFull
        case DropNewest => Some(WasShed)
        case Reject => Some(WasShed)
        case Block => Some(Cancelled)
        case Overflow => Some(Cancelled)
      else if b.records != [] && b.group in s.groups then Some(DuplicateGroup)
      else None
  }

  /**
   A batch larger than the budget enters a lane with nothing outstanding, one that fits exactly enters,
   and one that does not fit is shed by two of the policies and waits under the others.
   */
  lemma AdmitAnswers(s: State, b: Batch)
    ensures Admit(s, b).1 == AnswerTo(s, b)
  {
    if b.lane in s.lanes {
      T.RefusedWhenFull(s.lanes[b.lane].log, s.lanes[b.lane].budget, |b.records|);
    }
  }

  // ---- handles and outcomes ------------------------------------------------------------------------------

  /** The last record of that id with a handle has it at i. */
  predicate LastHandle(rs: seq<Rec>, r: RecordID, i: nat) {
    && i < |rs| && rs[i].id == r && rs[i].handle.Some?
    && forall j :: i < j < |rs| ==> rs[j].id != r || rs[j].handle.None?
  }

  /** A record is given the handle it came with; of several, the last. */
  lemma {:induction false} HandleKept(rs: seq<Rec>, r: RecordID)
    ensures r in Handles(rs) <==> exists i :: 0 <= i < |rs| && rs[i].id == r && rs[i].handle.Some?
    ensures forall i: nat :: LastHandle(rs, r, i) ==> r in Handles(rs) && Some(Handles(rs)[r]) == rs[i].handle
  {
    if rs == [] {
    } else {
      var init, n := rs[..|rs| - 1], |rs| - 1;
      HandleKept(init, r);
      forall i: nat | LastHandle(rs, r, i)
        ensures r in Handles(rs) && Some(Handles(rs)[r]) == rs[i].handle
      {
        assert i < n ==> LastHandle(init, r, i);
      }
      if i :| 0 <= i < n && rs[i].id == r && rs[i].handle.Some? {
        assert init[i] == rs[i];
      }
      if r in Handles(init) {
        var i :| 0 <= i < |init| && init[i].id == r && init[i].handle.Some?;
        assert rs[i] == init[i];
      }
    }
  }

  /** A discrete lane waits for the handles of the batch it took in, one of a prefix for none. */
  lemma HandlesGiven(s: State, b: Batch)
    requires Admit(s, b).1 == None && b.records != []
    ensures var s' := Admit(s, b).0;
            && b.group in s'.groups
            && s'.groups[b.group].handles ==
               (if s.lanes[b.lane].ordering == Discrete then Handles(b.records) else map[])
            && s'.lanes[b.lane].history.given == s.lanes[b.lane].history.given + [s'.groups[b.group].handles]
  {}

  /**
   What one outcome for a record in flight makes of its group, its handle and its admission: the handle goes
   to the landed or the abandoned ones, and the admission is an abandoned one only if its last outcome is.
   */
  lemma OutcomeSorts(s: State, o: Outcome)
    requires Inv(s) && o.record in s.byRec && s.byRec[o.record] in s.groups
    ensures var g := s.groups[s.byRec[o.record]];
            && g.lane in s.lanes && g.lane in SettleOne(s, o).0.lanes
            && var st, t := s.lanes[g.lane], SettleOne(s, o).0.lanes[g.lane];
               && g.ticket < |st.log| == |t.log|
               && t.log[g.ticket].abandoned ==
                  (st.log[g.ticket].abandoned || (o.disposition == Abandoned && g.settled + 1 == g.refs))
               && t.history.landed == st.history.landed +
                  (if o.record in g.handles && o.disposition != Abandoned then [g.handles[o.record]] else [])
               && t.history.dropped == st.history.dropped +
                  (if o.record in g.handles && o.disposition == Abandoned then [g.handles[o.record]] else [])
  {
    var gid := s.byRec[o.record];
    var g := s.groups[gid];
    GroupIndexed(s, gid);
    OutcomeLane(s.lanes[g.lane], g, o);
  }

  lemma TicketAbandoned(log: T.Log<Position>, i: nat, abandon: bool)
    requires i < |log| && log[i].refs > 0 && log[i].weight > 0
    ensures T.Discharge(log, i, 1, abandon)[i].abandoned == (log[i].abandoned || abandon)
  {
    T.RunSpec(log);
  }

  lemma CloseSame(st: Lane, g: Group)
    requires st.pending > 0
    ensures var t := CloseGroup(st, g);
            t.log == st.log && t.history.landed == st.history.landed && t.history.dropped == st.history.dropped
  {}

  lemma OutcomeLane(st: Lane, g: Group, o: Outcome)
    requires Indexed(st, g) && LaneOK(st) && GroupOK(st, g)
    ensures var t := LaneAfter(st, g, o);
            && |t.log| == |st.log|
            && t.log[g.ticket].abandoned ==
               (st.log[g.ticket].abandoned || (o.disposition == Abandoned && g.settled + 1 == g.refs))
            && t.history.landed == Record(st.history, g, o).landed
            && t.history.dropped == Record(st.history, g, o).dropped
  {
    TicketAbandoned(st.log, g.ticket, o.disposition == Abandoned && Complete(SettleGroup(g, o)));
    CloseSame(Noted(st, g, o), SettleGroup(g, o));
  }

  // ---- acknowledgements ----------------------------------------------------------------------------------

  /** The acknowledgements of a lane, in order. */
  function AcksOf(acks: seq<Ack>, id: LaneID): seq<Ack> {
    if acks == [] then []
    else AcksOf(acks[..|acks| - 1], id) + if acks[|acks| - 1].lane == id then [acks[|acks| - 1]] else []
  }

  lemma AcksOfNext(acks: seq<Ack>, out: seq<Ack>, id: LaneID)
    requires |out| <= 1
    ensures AcksOf(acks + out, id) == AcksOf(acks, id) + if out != [] && out[0].lane == id then out else []
  {
    if out == [] {
      assert acks + out == acks;
    } else {
      assert (acks + out)[..|acks|] == acks;
    }
  }

  /** What the lane has for its next acknowledgement, through the given position. */
  function Due(id: LaneID, st: Lane, through: Option<Position>): Ack {
    Ack(id, st.epoch, through, st.settledHandles, st.abandonedHandles, st.ackRecords, st.ackAbandoned,
        st.laneFinished && st.pending == 0, st.history.owed)
  }

  predicate Speaks(st: Lane) { !st.finishAcked && !HeldBack(st) }

  predicate NothingDue(st: Lane) {
    st.ackRecords == 0 && st.ackAbandoned == 0 && st.settledHandles == [] && st.abandonedHandles == []
  }

  predicate Distinct(order: seq<LaneID>) { forall i, j :: 0 <= i < j < |order| ==> order[i] != order[j] }

  lemma {:induction false} OthersUntouched(s: State, m: map<LaneID, Position>, order: seq<LaneID>, id: LaneID)
    requires id !in order
    ensures var s' := Committed(s, m, order);
            && (id in s.lanes <==> id in s'.lanes) && (id in s.lanes ==> s'.lanes[id] == s.lanes[id])
            && AcksOf(s'.acks, id) == AcksOf(s.acks, id)
  {
    if order == [] {
    } else {
      var init, at := order[..|order| - 1], order[|order| - 1];
      assert order == init + [at];
      OthersUntouched(s, m, init, id);
      var s1 := Committed(s, m, init);
      if at in s1.lanes && at in m {
        AcksOfNext(s1.acks, CommitLane(at, s1.lanes[at], m[at]).1, id);
      }
    }
  }

  /**
   A durable position of a prefix lane: everything due goes out in one acknowledgement, through that position,
   unless the lane was told its last or is held back; and nothing is due any more.
   */
  lemma {:induction false} CommittedSends(s: State, m: map<LaneID, Position>, order: seq<LaneID>, id: LaneID)
    requires id in s.lanes && id in order && id in m && Distinct(order)
    ensures var s', st := Committed(s, m, order), s.lanes[id];
            && id in s'.lanes
            && AcksOf(s'.acks, id) == AcksOf(s.acks, id) +
               (if st.ordering == Prefix && Speaks(st) then [Due(id, st, Some(m[id]))] else [])
            && (st.ordering == Prefix ==> NothingDue(s'.lanes[id]))
  {
    var init, at := order[..|order| - 1], order[|order| - 1];
    var s1 := Committed(s, m, init);
    assert order == init + [at];
    if at == id {
      OthersUntouched(s, m, init, id);
    } else {
      CommittedSends(s, m, init, id);
    }
    if at in s1.lanes && at in m {
      AcksOfNext(s1.acks, CommitLane(at, s1.lanes[at], m[at]).1, id);
    }
  }

  lemma {:induction false} OthersUnemitted(s: State, order: seq<LaneID>, id: LaneID)
    requires id !in order
    ensures var s' := EmitDiscrete(s, order);
            && (id in s.lanes <==> id in s'.lanes) && (id in s.lanes ==> s'.lanes[id] == s.lanes[id])
            && AcksOf(s'.acks, id) == AcksOf(s.acks, id)
  {
    if order == [] {
    } else {
      var init, at := order[..|order| - 1], order[|order| - 1];
      assert order == init + [at];
      OthersUnemitted(s, init, id);
      var s1 := EmitDiscrete(s, init);
      if at in s1.lanes {
        AcksOfNext(s1.acks, EmitLane(at, s1.lanes[at]).1, id);
      }
    }
  }

  /** A discrete lane with handles of either kind: the same, through no position. */
  lemma {:induction false} EmitSends(s: State, order: seq<LaneID>, id: LaneID)
    requires id in s.lanes && id in order && Distinct(order)
    ensures var s', st := EmitDiscrete(s, order), s.lanes[id];
            var due := st.ordering == Discrete && st.settledHandles + st.abandonedHandles != [];
            && id in s'.lanes
            && AcksOf(s'.acks, id) == AcksOf(s.acks, id) + (if due && Speaks(st) then [Due(id, st, None)] else [])
            && (due ==> NothingDue(s'.lanes[id]))
  {
    var init, at := order[..|order| - 1], order[|order| - 1];
    var s1 := EmitDiscrete(s, init);
    assert order == init + [at];
    if at == id {
      OthersUnemitted(s, init, id);
    } else {
      EmitSends(s, init, id);
    }
    if at in s1.lanes {
      AcksOfNext(s1.acks, EmitLane(at, s1.lanes[at]).1, id);
    }
  }

  // ---- revocation and retirement -------------------------------------------------------------------------

  /** A revocation fences the epoch the lane is held under, those before it and epoch one, and no other. */
  lemma RevokeFences(s: State, id: LaneID, e: nat)
    requires id in s.lanes
    ensures var st, t := s.lanes[id], Revoke(s, id).lanes[id];
            t.FencedEpoch(e) <==> st.FencedEpoch(e) || e <= st.epoch || e <= 1
  {}

  /** The lane has a group in flight. */
  predicate Busy(s: State, id: LaneID) { exists g :: g in s.groups && s.groups[g].lane == id }

  lemma PendingIsBusy(s: State, id: LaneID)
    requires Inv(s) && id in s.lanes
    ensures s.lanes[id].pending == 0 <==> !Busy(s, id)
  {
    assert LaneBalanced(s, id);
    if Busy(s, id) {
      var g :| g in s.groups && s.groups[g].lane == id;
      TotalRemove(s.groups, g, id, Groups);
    } else {
      NoGroups(s.groups, id, Groups);
    }
  }

  /**
   In every reachable state: the caller is told to retire a lane at once exactly when nothing of it is in
   flight, and a lane marked before is handed out exactly when that has come true, and then no more.
   */
  lemma RetiredWhenDrained(ops: seq<Op>, id: LaneID)
    ensures var s := Exec(Initial(), ops);
            && (RequestRetire(s, id).1 <==> !Busy(s, id))
            && (id in Retirable(s).1 <==>
                  id in s.lanes && s.lanes[id].retireRequested && !s.lanes[id].retireReported && !Busy(s, id))
            && id !in Retirable(Retirable(s).0).1
  {
    var s := Exec(Initial(), ops);
    InitialInv();
    ExecKeeps(Initial(), ops);
    if id in s.lanes {
      PendingIsBusy(s, id);
    } else {
      assert forall g :: g in s.groups ==> s.groups[g].lane in s.lanes;
    }
  }

  /** A lane is held back under an epoch exactly when a revocation covered it, however it came to be held. */
  lemma HeldUnder(s: State, id: LaneID, e: nat)
    requires id in s.lanes
    ensures HeldBack(SetEpoch(s, id, e).lanes[id]) <==> s.lanes[id].FencedEpoch(e)
    ensures SetEpoch(s, id, e).lanes[id].epoch == e
  {}

  /**
   In every reachable state: once a prefix lane is finished and has nothing in flight, the next durable
   position that it speaks of is acknowledged as its last, and with what is in flight as not its last.
   */
  lemma FinishIsTold(ops: seq<Op>, id: LaneID, m: map<LaneID, Position>, order: seq<LaneID>)
    requires id in Exec(Initial(), ops).lanes && id in m && id in order && Distinct(order)
    requires Exec(Initial(), ops).lanes[id].ordering == Prefix && Speaks(Exec(Initial(), ops).lanes[id])
    ensures var s := Exec(Initial(), ops);
            var acks := AcksOf(Committed(FinishLane(s, id), m, order).acks, id);
            |acks| > 0 && (acks[|acks| - 1].laneFinished <==> !Busy(s, id))
  {
    var s := Exec(Initial(), ops);
    InitialInv();
    ExecKeeps(Initial(), ops);
    PendingIsBusy(s, id);
    CommittedSends(FinishLane(s, id), m, order, id);
  }

  // ---- offers ------------------------------------------------------------------------------------------

  /** p lies behind q in the order of admission, and in the connector's own order when both have a place in it. */
  predicate Newer(p: Position, q: Position) {
    q.seqno < p.seqno && (p.order.Some? && q.order.Some? ==> q.order.value < p.order.value)
  }

  /** What waits is offered exactly when the lane is not held back and it is newer than what is stored. */
  lemma OfferedExactly(s: State, id: LaneID)
    ensures id in Flushable(s).1 <==>
            && id in s.lanes && s.lanes[id].pendingFlush.Some? && !HeldBack(s.lanes[id])
            && (s.lanes[id].committed.Some? ==> Newer(s.lanes[id].pendingFlush.value, s.lanes[id].committed.value))
    ensures id in Flushable(s).1 ==> Some(Flushable(s).1[id]) == s.lanes[id].pendingFlush
  {}

  /** What was offered or found stale is not offered again; what a lane held back has stays. */
  lemma OfferedOnce(s: State, id: LaneID)
    requires id in s.lanes
    ensures var t := Flushable(s).0.lanes[id];
            && id !in Flushable(Flushable(s).0).1
            && t.pendingFlush == (if HeldBack(s.lanes[id]) then s.lanes[id].pendingFlush else None)
  {}

  predicate SameCommitted(s: State, t: State, id: LaneID) {
    id in s.lanes && id in t.lanes && t.lanes[id].committed == s.lanes[id].committed
  }

  lemma {:induction false} SettleAllCommitted(s: State, outs: seq<Outcome>, id: LaneID)
    requires id in s.lanes
    ensures SameCommitted(s, SettleAll(s, outs).0, id)
  {
    if outs == [] {
    } else {
      SettleAllCommitted(s, outs[..|outs| - 1], id);
    }
  }

  lemma {:induction false} PublishAllCommitted(s: State, advances: seq<Advance>, id: LaneID)
    requires id in s.lanes
    ensures SameCommitted(s, PublishAll(s, advances), id)
  {
    if advances == [] {
    } else {
      PublishAllCommitted(s, advances[..|advances| - 1], id);
    }
  }

  lemma {:induction false} EmitCommitted(s: State, order: seq<LaneID>, id: LaneID)
    requires id in s.lanes
    ensures SameCommitted(s, EmitDiscrete(s, order), id)
  {
    if order == [] {
    } else {
      EmitCommitted(s, order[..|order| - 1], id);
    }
  }

  /** A lane's durable position is the one it was told, whatever order the lanes are visited in. */
  lemma {:induction false} CommittedIs(s: State, m: map<LaneID, Position>, order: seq<LaneID>, id: LaneID)
    requires id in s.lanes
    ensures id in Committed(s, m, order).lanes
    ensures Committed(s, m, order).lanes[id].committed ==
            if id in m && id in order then Some(m[id]) else s.lanes[id].committed
  {
    if order == [] {
    } else {
      CommittedIs(s, m, order[..|order| - 1], id);
      assert order == order[..|order| - 1] + [order[|order| - 1]];
    }
  }

  /** The call says nothing of the lane's durable position. */
  predicate SilentOn(op: Op, id: LaneID) { op.DoCommitted? ==> id !in op.positions }

  lemma HeldCommitted(s: State, b: Batch, id: LaneID)
    requires id in s.lanes && b.lane in s.lanes
    ensures SameCommitted(s, AdmitHeld(s, b).0, id)
  {}

  /** The calls that treat one lane, or every lane alike. */
  lemma PlainCommitted(s: State, op: Op, id: LaneID)
    requires id in s.lanes && !op.DoAdmit? && !op.DoSettle? && !op.DoEmit? && !op.DoCommitted?
    ensures SameCommitted(s, Step(s, op), id)
  {}

  lemma StepCommitted(s: State, op: Op, id: LaneID)
    requires id in s.lanes && SilentOn(op, id)
    ensures SameCommitted(s, Step(s, op), id)
  {
    match op
    case DoAdmit(b) =>
      if b.lane in s.lanes {
        HeldCommitted(s, b, id);
      }
    case DoSettle(outs) =>
      SettleAllCommitted(s, outs, id);
      PublishAllCommitted(SettleAll(s, outs).0, SettleAll(s, outs).1, id);
    case DoEmit(order) => EmitCommitted(s, order, id);
    case DoCommitted(m, order) => CommittedIs(s, m, order, id);
    case _ => PlainCommitted(s, op, id);
  }

  lemma {:induction false} ExecCommitted(s: State, ops: seq<Op>, id: LaneID)
    requires id in s.lanes && forall i :: 0 <= i < |ops| ==> SilentOn(ops[i], id)
    ensures SameCommitted(s, Exec(s, ops), id)
  {
    if ops == [] {
    } else {
      ExecCommitted(s, ops[..|ops| - 1], id);
      StepCommitted(Exec(s, ops[..|ops| - 1]), ops[|ops| - 1], id);
    }
  }

  /**
   Over every run: after the ledger is told that a position is durable, whatever it next offers for that
   lane is newer, by the order of admission and by the connector's.
   */
  lemma OffersMoveOn(ops: seq<Op>, m: map<LaneID, Position>, order: seq<LaneID>, more: seq<Op>, id: LaneID)
    requires id in Exec(Initial(), ops).lanes && id in m && id in order
    requires forall i :: 0 <= i < |more| ==> SilentOn(more[i], id)
    requires id in Flushable(Exec(Committed(Exec(Initial(), ops), m, order), more)).1
    ensures Newer(Flushable(Exec(Committed(Exec(Initial(), ops), m, order), more)).1[id], m[id])
  {
    var s := Committed(Exec(Initial(), ops), m, order);
    CommittedIs(Exec(Initial(), ops), m, order, id);
    ExecCommitted(s, more, id);
    OfferedExactly(Exec(s, more), id);
  }
}
