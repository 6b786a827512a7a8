/** A new offer always lies in the part of the prefix that was resolved since the last one. */
module LedgerOffers {
  import opened Wrappers
  import opened Records
  import opened LedgerSpec
  import opened LedgerInv
  import opened LedgerRuns
  import E = LedgerEpochs
  import F = LedgerFence
  import T = TrackerSpec

  /** p is the position of an admission in the prefix, at index n or later. */
  predicate LateAt(st: Lane, p: Position, n: nat, k: nat) {
    n <= k < T.Run(st.log) && st.log[k].payload == p
  }

  ghost predicate Late(st: Lane, p: Position, n: nat) {
    exists k: nat :: LateAt(st, p, n, k)
  }

  ghost predicate NewOffer(st: Lane, t: Lane) {
    && T.Run(st.log) <= T.Run(t.log)
    && (t.pendingFlush == st.pendingFlush || t.pendingFlush == None
        || Late(t, t.pendingFlush.value, T.Run(st.log)))
  }

  lemma AdvanceLate(before: T.Log<Position>, t: Lane, n: nat)
    requires n <= T.Run(before) && T.Advance(before, t.log).Some?
    ensures Late(t, T.Advance(before, t.log).value, n)
  {
    assert LateAt(t, T.Advance(before, t.log).value, n, T.Run(t.log) - 1);
  }

  lemma LateGrows(st: Lane, t: Lane, gone: set<RecordID>, p: Position, n: nat)
    requires Late(st, p, n) && Grows(st, t, gone) && T.Run(st.log) <= T.Run(t.log)
    ensures Late(t, p, n)
  {
    var k: nat :| LateAt(st, p, n, k);
    assert GrowsAt(st, t, gone, k);
    assert LateAt(t, p, n, k);
  }

  // ---- admission -----------------------------------------------------------------------------------

  lemma IdleOffer(st: Lane, pos: Position, a: Admission)
    ensures NewOffer(st, AdmitIdle(st, pos, a))
  {
    T.RunTrackResolved(st.log, pos);
    if T.Advance(st.log, T.TrackResolved(st.log, pos)).Some? {
      AdvanceLate(st.log, AdmitIdle(st, pos, a), T.Run(st.log));
    }
  }

  lemma ShedOffer(st: Lane, b: Batch, pos: Position)
    ensures NewOffer(st, ShedBatch(st, b, pos))
  {
    var t := ShedBatch(st, b, pos);
    T.RunTrackResolved(st.log, pos);
    if T.Advance(st.log, t.log).Some? {
      AdvanceLate(st.log, t, T.Run(st.log));
    }
  }

  lemma OpenOffer(s: State, st: Lane, b: Batch, pos: Position)
    requires b.lane in s.lanes && b.records != []
    ensures var s' := OpenGroup(s, st, b, pos).0; b.lane in s'.lanes && NewOffer(st, s'.lanes[b.lane])
  {
    T.RunTrack(st.log, pos, |b.records|, |b.records|);
    T.RunDischarge(Track(st, b, pos), |st.log|, 0, true);
  }

  lemma HeldOffer(s: State, b: Batch)
    requires b.lane in s.lanes
    ensures var s' := AdmitHeld(s, b).0; b.lane in s'.lanes && NewOffer(s.lanes[b.lane], s'.lanes[b.lane])
  {
    var pos := Stamp(s, b);
    var st := s.lanes[b.lane].(seqno := pos.seqno);
    if b.records == [] {
      IdleOffer(st, pos, Admission(Empty, {}, {}, st.epoch));
    } else if T.Admits(st.log, st.budget, |b.records|) {
      OpenOffer(s, st, b, pos);
    } else if Sheds(st.whenFull) {
      ShedOffer(st, b, pos);
    }
  }

  lemma AdmitOffer(s: State, b: Batch, id: LaneID)
    requires id in s.lanes
    ensures id in Admit(s, b).0.lanes && NewOffer(s.lanes[id], Admit(s, b).0.lanes[id])
  {
    if b.lane in s.lanes {
      F.HeldFence(s, b);
      HeldOffer(s, b);
    }
  }

  // ---- settlement ------------------------------------------------------------------------------------

  ghost predicate AllLate(st: Lane, advances: seq<Advance>, id: LaneID, n: nat) {
    forall i :: 0 <= i < |advances| && advances[i].lane == id ==> Late(st, advances[i].pos, n)
  }

  lemma AllLateGrows(st: Lane, t: Lane, gone: set<RecordID>, advances: seq<Advance>, id: LaneID, n: nat)
    requires AllLate(st, advances, id, n) && Grows(st, t, gone) && T.Run(st.log) <= T.Run(t.log)
    ensures AllLate(t, advances, id, n)
  {
    forall i | 0 <= i < |advances| && advances[i].lane == id
      ensures Late(t, advances[i].pos, n)
    {
      LateGrows(st, t, gone, advances[i].pos, n);
    }
  }

  lemma AllLateAppend(st: Lane, a: seq<Advance>, b: seq<Advance>, id: LaneID, n: nat)
    requires AllLate(st, a, id, n) && AllLate(st, b, id, n)
    ensures AllLate(st, a + b, id, n)
  {}

  lemma LaneAfterLate(st: Lane, g: Group, o: Outcome, id: LaneID, n: nat)
    requires LaneOK(st) && GroupOK(st, g) && st.pending > 0 && n <= T.Run(st.log)
    requires o.record in st.history.admissions[g.ticket].left
    ensures var t := LaneAfter(st, g, o);
            && Grows(st, t, {o.record}) && T.Run(st.log) <= T.Run(t.log) && E.LaneQuiet(st, t)
            && AllLate(t, AdvancesOf(st, g, o), id, n)
  {
    var t := LaneAfter(st, g, o);
    LaneAfterOK(st, g, o);
    E.LaneAfterQuiet(st, g, o);
    NotedEntry(st, g, o);
    SettledGrows(st, t, g, o);
    if T.Advance(st.log, t.log).Some? {
      AdvanceLate(st.log, t, n);
    }
  }

  /** The offer is untouched, and every advance waiting to be published lies at n or later. */
  ghost predicate Pending(s: State, id: LaneID, offer: Option<Position>, advances: seq<Advance>, n: nat) {
    && id in s.lanes
    && s.lanes[id].pendingFlush == offer
    && n <= T.Run(s.lanes[id].log)
    && AllLate(s.lanes[id], advances, id, n)
  }

  lemma SettleOneLate(s: State, o: Outcome, id: LaneID, offer: Option<Position>, before: seq<Advance>, n: nat)
    requires Inv(s) && Pending(s, id, offer, before, n)
    ensures Pending(SettleOne(s, o).0, id, offer, before + SettleOne(s, o).1, n)
  {
    var (s', a) := SettleOne(s, o);
    if Settles(s, o) {
      var g := s.groups[s.byRec[o.record]];
      if g.lane == id {
        LaneAfterLate(s.lanes[id], g, o, id, n);
        AllLateGrows(s.lanes[id], s'.lanes[id], {o.record}, before, id, n);
      } else {
        OtherLane(s, o, id);
      }
    }
    AllLateAppend(s'.lanes[id], before, a, id, n);
  }

  lemma {:induction false} SettleAllLate(s: State, outs: seq<Outcome>, id: LaneID, offer: Option<Position>, n: nat)
    requires Inv(s) && Pending(s, id, offer, [], n)
    ensures Pending(SettleAll(s, outs).0, id, offer, SettleAll(s, outs).1, n)
  {
    if outs == [] {
    } else {
      var (s1, a1) := SettleAll(s, outs[..|outs| - 1]);
      SettleAllKeeps(s, outs[..|outs| - 1]);
      SettleAllLate(s, outs[..|outs| - 1], id, offer, n);
      SettleOneLate(s1, outs[|outs| - 1], id, offer, a1, n);
    }
  }

  /** Publishing offers the old position or one of the advances. */
  lemma {:induction false} PublishAllLate(s: State, advances: seq<Advance>, id: LaneID)
    requires id in s.lanes
    ensures var s' := PublishAll(s, advances);
            && id in s'.lanes
            && s'.lanes[id].log == s.lanes[id].log
            && (s'.lanes[id].pendingFlush == s.lanes[id].pendingFlush
                || exists i :: 0 <= i < |advances| && advances[i].lane == id &&
                    s'.lanes[id].pendingFlush == Some(advances[i].pos))
  {
    if advances == [] {
    } else {
      var init := advances[..|advances| - 1];
      PublishAllLate(s, init, id);
      if PublishAll(s, init).lanes[id].pendingFlush != s.lanes[id].pendingFlush {
        var t := PublishAll(s, init);
        var i :| 0 <= i < |init| && init[i].lane == id && t.lanes[id].pendingFlush == Some(init[i].pos);
        assert advances[i] == init[i];
      }
    }
  }

  lemma SettleOffer(s: State, outs: seq<Outcome>, id: LaneID)
    requires Inv(s) && id in s.lanes
    ensures id in Settle(s, outs).lanes && NewOffer(s.lanes[id], Settle(s, outs).lanes[id])
  {
    var st := s.lanes[id];
    var (s1, advances) := SettleAll(s, outs);
    SettleAllLate(s, outs, id, st.pendingFlush, T.Run(st.log));
    PublishAllLate(s1, advances, id);
    var t := Settle(s, outs).lanes[id];
    if t.pendingFlush != st.pendingFlush {
      var i :| 0 <= i < |advances| && advances[i].lane == id && t.pendingFlush == Some(advances[i].pos);
      var k: nat :| LateAt(s1.lanes[id], advances[i].pos, T.Run(st.log), k);
      assert LateAt(t, advances[i].pos, T.Run(st.log), k);
    }
  }

  // ---- any step ----------------------------------------------------------------------------------------

  lemma {:induction false} EmitOffer(s: State, order: seq<LaneID>, id: LaneID)
    requires id in s.lanes
    ensures id in EmitDiscrete(s, order).lanes
    ensures EmitDiscrete(s, order).lanes[id].pendingFlush == s.lanes[id].pendingFlush
  {
    if order == [] {
    } else {
      EmitOffer(s, order[..|order| - 1], id);
    }
  }

  lemma {:induction false} CommittedOffer(s: State, m: map<LaneID, Position>, order: seq<LaneID>, id: LaneID)
    requires id in s.lanes
    ensures id in Committed(s, m, order).lanes
    ensures Committed(s, m, order).lanes[id].pendingFlush == s.lanes[id].pendingFlush
  {
    if order == [] {
    } else {
      CommittedOffer(s, m, order[..|order| - 1], id);
    }
  }

  lemma QuietOffer(s: State, op: Op, id: LaneID)
    requires id in s.lanes && !op.DoAdmit? && !op.DoSettle?
    ensures var s' := Step(s, op);
            id in s'.lanes && (s'.lanes[id].pendingFlush == s.lanes[id].pendingFlush ||
                s'.lanes[id].pendingFlush == None)
  {
    match op
    case DoEmit(order) => EmitOffer(s, order, id);
    case DoCommitted(m, order) => CommittedOffer(s, m, order, id);
    case _ =>
  }

  lemma StepOffer(s: State, op: Op, id: LaneID)
    requires Inv(s) && id in s.lanes
    ensures id in Step(s, op).lanes && NewOffer(s.lanes[id], Step(s, op).lanes[id])
  {
    if op.DoAdmit? {
      AdmitOffer(s, op.batch, id);
    } else if op.DoSettle? {
      SettleOffer(s, op.outcomes, id);
    } else {
      QuietSame(s, op, id);
      QuietOffer(s, op, id);
    }
  }
}
