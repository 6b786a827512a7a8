/** Records and handles are withheld only behind a fence or behind the final acknowledgement. */
module LedgerWithheld {
  import opened Records
  import opened LedgerSpec
  import opened LedgerInv
  import opened LedgerRuns
  import opened LedgerFence
  import T = TrackerSpec

  /** Never revoked, and not told that it is finished. */
  predicate Untroubled(st: Lane) { st.fencedThrough == 0 && !st.finishAcked }

  predicate SameLosses(st: Lane, t: Lane) {
    && t.history.withheld == st.history.withheld && t.history.unreported == st.history.unreported
    && t.history.lostLanded == st.history.lostLanded && t.history.lostDropped == st.history.lostDropped
  }

  /** Whatever is untroubled now was so before, and has lost nothing on the way. */
  predicate Spares(st: Lane, t: Lane) {
    && st.fencedThrough <= t.fencedThrough
    && (Untroubled(t) ==> Untroubled(st) && SameLosses(st, t))
  }

  predicate NothingLost(st: Lane) {
    && st.history.withheld == 0 && st.history.unreported == 0
    && st.history.lostLanded == [] && st.history.lostDropped == []
  }

  lemma CloseSpares(st: Lane, g: Group)
    requires st.pending > 0
    ensures Spares(st, CloseGroup(st, g))
  {}

  lemma LaneAfterSpares(st: Lane, g: Group, o: Outcome)
    requires Indexed(st, g)
    ensures Spares(st, LaneAfter(st, g, o))
  {
    CloseSpares(Noted(st, g, o), SettleGroup(g, o));
  }

  lemma SettleOneSpares(s: State, o: Outcome, id: LaneID)
    requires id in s.lanes
    ensures id in SettleOne(s, o).0.lanes && Spares(s.lanes[id], SettleOne(s, o).0.lanes[id])
  {
    if Settles(s, o) {
      LaneAfterSpares(s.lanes[s.groups[s.byRec[o.record]].lane], s.groups[s.byRec[o.record]], o);
    }
  }

  lemma {:induction false} SettleAllSpares(s: State, outs: seq<Outcome>, id: LaneID)
    requires id in s.lanes
    ensures id in SettleAll(s, outs).0.lanes && Spares(s.lanes[id], SettleAll(s, outs).0.lanes[id])
  {
    if outs == [] {
    } else {
      SettleAllSpares(s, outs[..|outs| - 1], id);
      SettleOneSpares(SettleAll(s, outs[..|outs| - 1]).0, outs[|outs| - 1], id);
    }
  }

  lemma {:induction false} PublishSpares(s: State, advances: seq<Advance>, id: LaneID)
    requires id in s.lanes
    ensures id in PublishAll(s, advances).lanes && Spares(s.lanes[id], PublishAll(s, advances).lanes[id])
  {
    if advances == [] {
    } else {
      PublishSpares(s, advances[..|advances| - 1], id);
    }
  }

  lemma SettleSpares(s: State, outs: seq<Outcome>, id: LaneID)
    requires id in s.lanes
    ensures id in Settle(s, outs).lanes && Spares(s.lanes[id], Settle(s, outs).lanes[id])
  {
    SettleAllSpares(s, outs, id);
    PublishSpares(SettleAll(s, outs).0, SettleAll(s, outs).1, id);
  }

  lemma {:induction false} EmitSpares(s: State, order: seq<LaneID>, id: LaneID)
    requires id in s.lanes
    ensures id in EmitDiscrete(s, order).lanes && Spares(s.lanes[id], EmitDiscrete(s, order).lanes[id])
  {
    if order == [] {
    } else {
      EmitSpares(s, order[..|order| - 1], id);
    }
  }

  lemma {:induction false} CommittedSpares(s: State, m: map<LaneID, Position>, order: seq<LaneID>, id: LaneID)
    requires id in s.lanes
    ensures id in Committed(s, m, order).lanes && Spares(s.lanes[id], Committed(s, m, order).lanes[id])
  {
    if order == [] {
    } else {
      CommittedSpares(s, m, order[..|order| - 1], id);
    }
  }

  lemma OpenSpares(s: State, st: Lane, b: Batch, pos: Position)
    requires b.lane in s.lanes
    ensures var s' := OpenGroup(s, st, b, pos).0; b.lane in s'.lanes && Spares(st, s'.lanes[b.lane])
  {}

  lemma IdleSpares(st: Lane, pos: Position, a: Admission)
    ensures Spares(st, AdmitIdle(st, pos, a))
  {}

  lemma HeldSpares(s: State, b: Batch)
    requires b.lane in s.lanes
    ensures var s' := AdmitHeld(s, b).0; b.lane in s'.lanes && Spares(s.lanes[b.lane], s'.lanes[b.lane])
  {
    var pos := Stamp(s, b);
    var st := s.lanes[b.lane].(seqno := pos.seqno);
    if b.records == [] {
      IdleSpares(st, pos, Admission(Empty, {}, {}, st.epoch));
    } else if T.Admits(st.log, st.budget, |b.records|) {
      OpenSpares(s, st, b, pos);
    } else if Sheds(st.whenFull) {
      IdleSpares(st, pos, Admission(Shed, Ids(b.records), Ids(b.records), st.epoch));
      assert AdmitHeld(s, b).0 == SetLane(s, b.lane, ShedBatch(st, b, pos));
    } else {
      assert AdmitHeld(s, b).0 == SetLane(s, b.lane, st);
    }
  }

  lemma AdmitSpares(s: State, b: Batch, id: LaneID)
    requires id in s.lanes
    ensures id in Admit(s, b).0.lanes && Spares(s.lanes[id], Admit(s, b).0.lanes[id])
  {
    if b.lane in s.lanes {
      HeldFence(s, b);
      HeldSpares(s, b);
    }
  }

  lemma RevokeSpares(s: State, at: LaneID, id: LaneID)
    requires id in s.lanes
    ensures id in Revoke(s, at).lanes && Spares(s.lanes[id], Revoke(s, at).lanes[id])
  {}

  lemma OtherSpares(s: State, op: Op, id: LaneID)
    requires id in s.lanes && !op.DoAdmit? && !op.DoSettle? && !op.DoEmit? && !op.DoCommitted? && !op.DoRevoke?
    ensures id in Step(s, op).lanes && Spares(s.lanes[id], Step(s, op).lanes[id])
  {}

  lemma StepSpares(s: State, op: Op, id: LaneID)
    requires id in s.lanes
    ensures id in Step(s, op).lanes && Spares(s.lanes[id], Step(s, op).lanes[id])
  {
    match op
    case DoAdmit(b) => AdmitSpares(s, b, id);
    case DoSettle(outs) => SettleSpares(s, outs, id);
    case DoEmit(order) => EmitSpares(s, order, id);
    case DoCommitted(m, order) => CommittedSpares(s, m, order, id);
    case DoRevoke(at) => RevokeSpares(s, at, id);
    case _ => OtherSpares(s, op, id);
  }

  // ---- who was told it is finished -------------------------------------------------------------------

  /** The lane's flag goes with an acknowledgement that says so. */
  predicate Told(s: State, id: LaneID) {
    id in s.lanes && (s.lanes[id].finishAcked ==> exists j :: 0 <= j < |s.acks| && Final(s.acks[j], id))
  }

  predicate Final(a: Ack, id: LaneID) { a.lane == id && a.laneFinished }

  /** The flag changes only with an acknowledgement of its lane, which carries it. */
  predicate Tells(s: State, s': State, id: LaneID) {
    && id in s.lanes && id in s'.lanes
    && |s.acks| <= |s'.acks| && s'.acks[..|s.acks|] == s.acks
    && (s'.lanes[id].finishAcked && !s.lanes[id].finishAcked ==>
          exists j :: 0 <= j < |s'.acks| && Final(s'.acks[j], id))
  }

  lemma TellsTold(s: State, s': State, id: LaneID)
    requires Told(s, id) && Tells(s, s', id)
    ensures Told(s', id)
  {
    if s.lanes[id].finishAcked && s'.lanes[id].finishAcked {
      var j :| 0 <= j < |s.acks| && Final(s.acks[j], id);
      assert s'.acks[j] == s.acks[j];
    }
  }

  lemma OneTells(s: State, s': State, at: LaneID, out: seq<Ack>, id: LaneID)
    requires Told(s, id) && at in s.lanes && at in s'.lanes
    requires s'.lanes == s.lanes[at := s'.lanes[at]] && s'.acks == s.acks + out
    requires s'.lanes[at].finishAcked ==> s.lanes[at].finishAcked || (|out| == 1 && Final(out[0], at))
    ensures Told(s', id)
  {
    if at == id && s'.lanes[id].finishAcked && !s.lanes[id].finishAcked {
      assert s'.acks[|s.acks|] == out[0];
    }
    TellsTold(s, s', id);
  }

  lemma {:induction false} EmitTold(s: State, order: seq<LaneID>, id: LaneID)
    requires Told(s, id)
    ensures Told(EmitDiscrete(s, order), id)
  {
    if order == [] {
    } else {
      EmitTold(s, order[..|order| - 1], id);
      var s1, at := EmitDiscrete(s, order[..|order| - 1]), order[|order| - 1];
      if at in s1.lanes {
        OneTells(s1, EmitDiscrete(s, order), at, EmitLane(at, s1.lanes[at]).1, id);
      }
    }
  }

  lemma {:induction false} CommittedTold(s: State, m: map<LaneID, Position>, order: seq<LaneID>, id: LaneID)
    requires Told(s, id)
    ensures Told(Committed(s, m, order), id)
  {
    if order == [] {
    } else {
      CommittedTold(s, m, order[..|order| - 1], id);
      var s1, at := Committed(s, m, order[..|order| - 1]), order[|order| - 1];
      if at in s1.lanes && at in m {
        OneTells(s1, Committed(s, m, order), at, CommitLane(at, s1.lanes[at], m[at]).1, id);
      }
    }
  }

  lemma {:induction false} SettleAllFlag(s: State, outs: seq<Outcome>, id: LaneID)
    requires id in s.lanes
    ensures var s' := SettleAll(s, outs).0; id in s'.lanes && s'.lanes[id].finishAcked == s.lanes[id].finishAcked
  {
    if outs == [] {
    } else {
      SettleAllFlag(s, outs[..|outs| - 1], id);
      SettleOneFlag(SettleAll(s, outs[..|outs| - 1]).0, outs[|outs| - 1], id);
    }
  }

  lemma SettleOneFlag(s: State, o: Outcome, id: LaneID)
    requires id in s.lanes
    ensures var s' := SettleOne(s, o).0; id in s'.lanes && s'.lanes[id].finishAcked == s.lanes[id].finishAcked
  {}

  lemma {:induction false} PublishFlag(s: State, advances: seq<Advance>, id: LaneID)
    requires id in s.lanes
    ensures var s' := PublishAll(s, advances); id in s'.lanes && s'.lanes[id].finishAcked == s.lanes[id].finishAcked
  {
    if advances == [] {
    } else {
      PublishFlag(s, advances[..|advances| - 1], id);
    }
  }

  lemma HeldFlag(s: State, b: Batch)
    requires b.lane in s.lanes
    ensures var s' := AdmitHeld(s, b).0;
            b.lane in s'.lanes && s'.lanes[b.lane].finishAcked == s.lanes[b.lane].finishAcked
  {}

  lemma QuietFlag(s: State, op: Op, id: LaneID)
    requires id in s.lanes && !op.DoEmit? && !op.DoCommitted?
    ensures id in Step(s, op).lanes && Step(s, op).lanes[id].finishAcked == s.lanes[id].finishAcked
  {
    match op
    case DoSettle(outs) =>
      SettleAllFlag(s, outs, id);
      PublishFlag(SettleAll(s, outs).0, SettleAll(s, outs).1, id);
    case DoAdmit(b) =>
      if b.lane in s.lanes {
        HeldFence(s, b);
        HeldFlag(s, b);
      }
    case _ =>
  }

  lemma StepTold(s: State, op: Op, id: LaneID)
    requires Told(s, id)
    ensures Told(Step(s, op), id)
  {
    if op.DoEmit? {
      EmitTold(s, op.order, id);
    } else if op.DoCommitted? {
      CommittedTold(s, op.positions, op.order, id);
    } else {
      QuietFlag(s, op, id);
      QuietAcks(s, op);
      TellsTold(s, Step(s, op), id);
    }
  }

  // ---- runs --------------------------------------------------------------------------------------------

  predicate Accounted(s: State, id: LaneID) {
    Told(s, id) && (Untroubled(s.lanes[id]) ==> NothingLost(s.lanes[id]))
  }

  lemma StepAccounted(s: State, op: Op, id: LaneID)
    requires Inv(s) && (id in s.lanes ==> Accounted(s, id)) && id in Step(s, op).lanes
    ensures Accounted(Step(s, op), id)
    ensures op != DoRevoke(id) && (id in s.lanes ==> s.lanes[id].fencedThrough == 0) ==>
              Step(s, op).lanes[id].fencedThrough == 0
  {
    if id in s.lanes {
      StepSpares(s, op, id);
      StepTold(s, op, id);
      if op.DoSettle? {
        SettleAllWatermark(s, op.outcomes, id);
      } else if !op.DoRevoke? {
        QuietFence(s, op, id);
      }
    } else {
      Joins(s, op, id);
    }
  }

  lemma {:induction false} SettleAllWatermark(s: State, outs: seq<Outcome>, id: LaneID)
    requires id in s.lanes
    ensures id in Settle(s, outs).lanes && Settle(s, outs).lanes[id].fencedThrough == s.lanes[id].fencedThrough
  {
    SettledWatermark(s, outs, id);
    PublishFence(SettleAll(s, outs).0, SettleAll(s, outs).1, id);
  }

  lemma {:induction false} SettledWatermark(s: State, outs: seq<Outcome>, id: LaneID)
    requires id in s.lanes
    ensures var s' := SettleAll(s, outs).0; id in s'.lanes && s'.lanes[id].fencedThrough == s.lanes[id].fencedThrough
  {
    if outs == [] {
    } else {
      SettledWatermark(s, outs[..|outs| - 1], id);
      SettleOneWatermark(SettleAll(s, outs[..|outs| - 1]).0, outs[|outs| - 1], id);
    }
  }

  lemma SettleOneWatermark(s: State, o: Outcome, id: LaneID)
    requires id in s.lanes
    ensures var s' := SettleOne(s, o).0; id in s'.lanes && s'.lanes[id].fencedThrough == s.lanes[id].fencedThrough
  {}

  lemma {:induction false} ExecAccounted(s: State, ops: seq<Op>, id: LaneID)
    requires Inv(s) && id !in s.lanes && id in Exec(s, ops).lanes
    ensures Accounted(Exec(s, ops), id)
    ensures DoRevoke(id) !in ops ==> Exec(s, ops).lanes[id].fencedThrough == 0
  {
    var init := ops[..|ops| - 1];
    var s1 := Exec(s, init);
    ExecKeeps(s, init);
    if id in s1.lanes {
      ExecAccounted(s, init, id);
    }
    StepAccounted(s1, ops[|ops| - 1], id);
  }

  /**
   Over every run: a lane that was never revoked and never sent its final acknowledgement withholds
   no record and has lost no handle, so there its books say where everything is.
   */
  lemma NothingWithheld(ops: seq<Op>, id: LaneID)
    requires id in Exec(Initial(), ops).lanes && DoRevoke(id) !in ops
    requires forall j :: 0 <= j < |Exec(Initial(), ops).acks| ==> !Final(Exec(Initial(), ops).acks[j], id)
    ensures NothingLost(Exec(Initial(), ops).lanes[id])
  {
    InitialInv();
    ExecAccounted(Initial(), ops, id);
  }
}
