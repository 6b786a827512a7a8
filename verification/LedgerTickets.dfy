/** Which admissions an acknowledgement counts: each settled one at most once, and none still open. */
module LedgerTickets {
  import opened Records
  import opened LedgerSpec
  import opened LedgerInv
  import opened LedgerRuns
  import opened LedgerFence
  import opened Counting
  import T = TrackerSpec

  /** How often lane id's acknowledgements count ticket k. */
  function SentCount(acks: seq<Ack>, id: LaneID, k: nat): nat {
    if acks == [] then 0
    else
      var a := acks[|acks| - 1];
      SentCount(acks[..|acks| - 1], id, k) + if a.lane == id then Count(a.tickets, k) else 0
  }

  /** How often the ticket was counted, or is about to be. */
  function Uses(s: State, id: LaneID, k: nat): nat
    requires id in s.lanes
  {
    SentCount(s.acks, id, k) + Count(s.lanes[id].history.owed, k)
  }

  /** The admission carried records, and every one of them has had its outcome. */
  predicate SettledTicket(st: Lane, k: nat) {
    && k < |st.log| && k < |st.history.admissions|
    && st.history.admissions[k].kind.Carried? && st.history.admissions[k].left == {}
  }

  predicate NotOpen(groups: map<GroupID, Group>, id: LaneID, k: nat) {
    forall g :: g in groups && groups[g].lane == id ==> groups[g].ticket != k
  }

  predicate TicketOK(s: State, id: LaneID, k: nat) {
    && id in s.lanes
    && Uses(s, id, k) <= 1
    && (Uses(s, id, k) > 0 ==> SettledTicket(s.lanes[id], k) && NotOpen(s.groups, id, k))
  }

  lemma TicketGrows(st: Lane, t: Lane, gone: set<RecordID>, k: nat)
    requires SettledTicket(st, k) && Grows(st, t, gone)
    ensures SettledTicket(t, k)
  {
    assert GrowsAt(st, t, gone, k);
  }

  // ---- steps that count nothing more ---------------------------------------------------------------

  /** Nothing is owed that was not, no acknowledgement went out, and no group reuses a ticket. */
  predicate CountsNoMore(s: State, s': State, id: LaneID) {
    && id in s.lanes && id in s'.lanes
    && s'.acks == s.acks
    && (s'.lanes[id].history.owed == s.lanes[id].history.owed || s'.lanes[id].history.owed == [])
    && (forall g :: g in s'.groups && s'.groups[g].lane == id ==>
          s'.groups[g].ticket >= |s.lanes[id].log|
          || exists h :: h in s.groups && s.groups[h].lane == id && s.groups[h].ticket == s'.groups[g].ticket)
  }

  lemma NoMoreTicket(s: State, s': State, id: LaneID, k: nat, gone: set<RecordID>)
    requires TicketOK(s, id, k) && CountsNoMore(s, s', id) && Grows(s.lanes[id], s'.lanes[id], gone)
    ensures TicketOK(s', id, k)
  {
    if Uses(s', id, k) > 0 {
      TicketGrows(s.lanes[id], s'.lanes[id], gone, k);
    }
  }

  lemma HeldCounts(s: State, b: Batch, id: LaneID)
    requires b.lane in s.lanes && id in s.lanes
    ensures CountsNoMore(s, AdmitHeld(s, b).0, id)
  {
    HeldFence(s, b);
    HeldGroups(s, b);
  }

  lemma OpenedGroups(s: State, st: Lane, b: Batch, pos: Position)
    requires b.lane in s.lanes
    ensures var s' := OpenGroup(s, st, b, pos).0;
            && (s'.groups == s.groups
                || (b.group !in s.groups && s'.groups == s.groups[b.group := NewGroup(st, b)]))
            && b.lane in s'.lanes && s'.lanes[b.lane].history.owed == st.history.owed
  {}

  lemma HeldGroups(s: State, b: Batch)
    requires b.lane in s.lanes
    ensures var s' := AdmitHeld(s, b).0;
            && (s'.groups == s.groups
                || (b.group !in s.groups && s'.groups == s.groups[b.group := NewGroup(s.lanes[b.lane], b)]))
            && b.lane in s'.lanes && s'.lanes[b.lane].history.owed == s.lanes[b.lane].history.owed
  {
    var pos := Stamp(s, b);
    var st := s.lanes[b.lane].(seqno := pos.seqno);
    if b.records != [] && T.Admits(st.log, st.budget, |b.records|) {
      OpenedGroups(s, st, b, pos);
      assert NewGroup(st, b) == NewGroup(s.lanes[b.lane], b);
    } else {
      assert AdmitHeld(s, b).0.groups == s.groups;
    }
  }

  lemma AdmitTicket(s: State, b: Batch, id: LaneID, k: nat)
    requires Inv(s) && TicketOK(s, id, k)
    ensures TicketOK(Admit(s, b).0, id, k)
  {
    if Admit(s, b).0 != s {
      HeldCounts(s, b, id);
      AdmitGrows(s, b, id);
      assert Admit(s, b).0 == AdmitHeld(s, b).0;
      NoMoreTicket(s, Admit(s, b).0, id, k, {});
    }
  }

  /** Operations on flags, epochs, offers and the fence. */
  predicate Plain(op: Op) { !op.DoAdmit? && !op.DoSettle? && !op.DoEmit? && !op.DoCommitted? }

  lemma PlainOwed(s: State, op: Op, id: LaneID)
    requires id in s.lanes && Plain(op)
    ensures var s' := Step(s, op);
            && id in s'.lanes && s'.groups == s.groups && s'.acks == s.acks
            && (s'.lanes[id].history.owed == s.lanes[id].history.owed || s'.lanes[id].history.owed == [])
  {}

  lemma PlainTicket(s: State, op: Op, id: LaneID, k: nat)
    requires Inv(s) && TicketOK(s, id, k) && Plain(op)
    ensures TicketOK(Step(s, op), id, k)
  {
    PlainOwed(s, op, id);
    StepGrows(s, op, id);
    NoMoreTicket(s, Step(s, op), id, k, Gone(op));
  }

  // ---- settlement: a group that closes is owed once ---------------------------------------------------

  lemma OwedAfter(st: Lane, g: Group, o: Outcome)
    requires Indexed(st, g)
    ensures LaneAfter(st, g, o).history.owed ==
            if Complete(SettleGroup(g, o)) && !st.FencedEpoch(g.epoch) then st.history.owed + [g.ticket]
            else st.history.owed
  {}

  /** No outcome gives a group another lane or another ticket, and none opens a group. */
  lemma SettleGroups(s: State, o: Outcome)
    requires Settles(s, o)
    ensures var gs := SettleOne(s, o).0.groups;
            forall h :: h in gs ==>
              h in s.groups && gs[h].lane == s.groups[h].lane && gs[h].ticket == s.groups[h].ticket
  {
    var gid := s.byRec[o.record];
    var g := SettleGroup(s.groups[gid], o);
    assert g.lane == s.groups[gid].lane && g.ticket == s.groups[gid].ticket;
  }

  /** An outcome for a group of another lane, or one that does not close its group. */
  lemma SettleElsewhere(s: State, o: Outcome, id: LaneID, k: nat)
    requires Inv(s) && TicketOK(s, id, k) && Settles(s, o)
    requires var g := s.groups[s.byRec[o.record]];
             g.lane != id || !Complete(SettleGroup(g, o)) || s.lanes[id].FencedEpoch(g.epoch)
    ensures TicketOK(SettleOne(s, o).0, id, k)
  {
    var s' := SettleOne(s, o).0;
    var gid := s.byRec[o.record];
    var g := s.groups[gid];
    OwedAfter(s.lanes[g.lane], g, o);
    SettleOneGrows(s, o, id);
    SettleGroups(s, o);
    NoMoreTicket(s, s', id, k, {o.record});
  }

  /** The group's own ticket was counted by nothing, and is now owed. */
  lemma SettleOwn(s: State, o: Outcome, id: LaneID)
    requires Inv(s) && Settles(s, o)
    requires var g := s.groups[s.byRec[o.record]];
             && g.lane == id && Complete(SettleGroup(g, o)) && !s.lanes[id].FencedEpoch(g.epoch)
             && TicketOK(s, id, g.ticket)
    ensures TicketOK(SettleOne(s, o).0, id, s.groups[s.byRec[o.record]].ticket)
  {
    var s' := SettleOne(s, o).0;
    var gid := s.byRec[o.record];
    var g := s.groups[gid];
    assert Uses(s, id, g.ticket) == 0;
    OwedAfter(s.lanes[id], g, o);
    CountOne(s.lanes[id].history.owed, g.ticket, g.ticket);
    SettledNow(s, o, id);
    forall h | h in s'.groups && s'.groups[h].lane == id
      ensures s'.groups[h].ticket != g.ticket
    {
      assert h != gid && s'.groups[h] == s.groups[h];
      assert Apart(s.groups, gid, h);
    }
  }

  lemma SettledNow(s: State, o: Outcome, id: LaneID)
    requires Inv(s) && Settles(s, o)
    requires var g := s.groups[s.byRec[o.record]]; g.lane == id && Complete(SettleGroup(g, o))
    ensures SettledTicket(SettleOne(s, o).0.lanes[id], s.groups[s.byRec[o.record]].ticket)
  {
    var g := s.groups[s.byRec[o.record]];
    SettleOneOutcome(s, o);
    NotedLane(s.lanes[id], g, o);
    NotedEntry(s.lanes[id], g, o);
  }

  lemma SettleOther(s: State, o: Outcome, id: LaneID, k: nat)
    requires Inv(s) && TicketOK(s, id, k) && Settles(s, o)
    requires s.groups[s.byRec[o.record]].lane == id && s.groups[s.byRec[o.record]].ticket != k
    ensures TicketOK(SettleOne(s, o).0, id, k)
  {
    var s' := SettleOne(s, o).0;
    var g := s.groups[s.byRec[o.record]];
    OwedAfter(s.lanes[id], g, o);
    CountOne(s.lanes[id].history.owed, g.ticket, k);
    SettleOneGrows(s, o, id);
    SettleGroups(s, o);
    if Uses(s', id, k) > 0 {
      TicketGrows(s.lanes[id], s'.lanes[id], {o.record}, k);
    }
  }

  lemma SettleOneTicket(s: State, o: Outcome, id: LaneID, k: nat)
    requires Inv(s) && TicketOK(s, id, k)
    ensures TicketOK(SettleOne(s, o).0, id, k)
  {
    if Settles(s, o) {
      var g := s.groups[s.byRec[o.record]];
      if g.lane != id || !Complete(SettleGroup(g, o)) || s.lanes[id].FencedEpoch(g.epoch) {
        SettleElsewhere(s, o, id, k);
      } else if g.ticket == k {
        SettleOwn(s, o, id);
      } else {
        SettleOther(s, o, id, k);
      }
    }
  }

  lemma {:induction false} SettleAllTicket(s: State, outs: seq<Outcome>, id: LaneID, k: nat)
    requires Inv(s) && TicketOK(s, id, k)
    ensures TicketOK(SettleAll(s, outs).0, id, k)
  {
    if outs == [] {
    } else {
      SettleAllTicket(s, outs[..|outs| - 1], id, k);
      SettleAllKeeps(s, outs[..|outs| - 1]);
      SettleOneTicket(SettleAll(s, outs[..|outs| - 1]).0, outs[|outs| - 1], id, k);
    }
  }

  lemma {:induction false} PublishOwed(s: State, advances: seq<Advance>, id: LaneID)
    requires id in s.lanes
    ensures var s' := PublishAll(s, advances);
            && id in s'.lanes && s'.acks == s.acks && s'.groups == s.groups
            && s'.lanes[id].history.owed == s.lanes[id].history.owed
  {
    if advances == [] {
    } else {
      PublishOwed(s, advances[..|advances| - 1], id);
    }
  }

  lemma SettleTicket(s: State, outs: seq<Outcome>, id: LaneID, k: nat)
    requires Inv(s) && TicketOK(s, id, k)
    ensures TicketOK(Settle(s, outs), id, k)
  {
    var (s1, advances) := SettleAll(s, outs);
    SettleAllKeeps(s, outs);
    SettleAllTicket(s, outs, id, k);
    PublishOwed(s1, advances, id);
    PublishAllSame(s1, advances, id);
    assert LaneOK(s1.lanes[id]);
    SameGrows(s1.lanes[id], Settle(s, outs).lanes[id], {});
    NoMoreTicket(s1, Settle(s, outs), id, k, {});
  }

  // ---- acknowledging: what was owed is counted ---------------------------------------------------------

  /** What emitting may do to a lane, as far as tickets go. */
  predicate Passes(at: LaneID, st: Lane, t: Lane, out: seq<Ack>) {
    && SameAdmissions(st, t)
    && (|| (out == [] && (t.history.owed == st.history.owed || t.history.owed == []))
        || (|out| == 1 && out[0].lane == at && out[0].tickets == st.history.owed && t.history.owed == []))
  }

  lemma SentOne(acks: seq<Ack>, a: Ack, id: LaneID, k: nat)
    ensures SentCount(acks + [a], id, k) == SentCount(acks, id, k) + if a.lane == id then Count(a.tickets, k) else 0
  {
    assert (acks + [a])[..|acks|] == acks;
  }

  lemma PassUses(s: State, s': State, at: LaneID, out: seq<Ack>, id: LaneID, k: nat)
    requires at in s.lanes && at in s'.lanes && Passes(at, s.lanes[at], s'.lanes[at], out) && id in s.lanes
    requires s'.lanes == s.lanes[at := s'.lanes[at]] && s'.acks == s.acks + out
    ensures id in s'.lanes && Uses(s', id, k) <= Uses(s, id, k)
  {
    if out == [] {
      assert s.acks + out == s.acks;
    } else {
      assert out == [out[0]];
      SentOne(s.acks, out[0], id, k);
    }
  }

  lemma PassTicket(s: State, s': State, at: LaneID, out: seq<Ack>, id: LaneID, k: nat)
    requires TicketOK(s, id, k) && at in s.lanes && at in s'.lanes && Passes(at, s.lanes[at], s'.lanes[at], out)
    requires s'.lanes == s.lanes[at := s'.lanes[at]] && s'.acks == s.acks + out && s'.groups == s.groups
    ensures TicketOK(s', id, k)
  {
    PassUses(s, s', at, out, id, k);
  }

  lemma EmitPasses(at: LaneID, st: Lane)
    ensures Passes(at, st, EmitLane(at, st).0, EmitLane(at, st).1)
  {}

  lemma CommitPasses(at: LaneID, st: Lane, pos: Position)
    ensures Passes(at, st, CommitLane(at, st, pos).0, CommitLane(at, st, pos).1)
  {}

  lemma {:induction false} EmitTicket(s: State, order: seq<LaneID>, id: LaneID, k: nat)
    requires TicketOK(s, id, k)
    ensures TicketOK(EmitDiscrete(s, order), id, k)
  {
    if order == [] {
    } else {
      EmitTicket(s, order[..|order| - 1], id, k);
      var s1, at := EmitDiscrete(s, order[..|order| - 1]), order[|order| - 1];
      if at in s1.lanes {
        EmitPasses(at, s1.lanes[at]);
        PassTicket(s1, EmitDiscrete(s, order), at, EmitLane(at, s1.lanes[at]).1, id, k);
      }
    }
  }

  lemma {:induction false} CommittedTicket(s: State, m: map<LaneID, Position>, order: seq<LaneID>, id: LaneID, k: nat)
    requires TicketOK(s, id, k)
    ensures TicketOK(Committed(s, m, order), id, k)
  {
    if order == [] {
    } else {
      CommittedTicket(s, m, order[..|order| - 1], id, k);
      var s1, at := Committed(s, m, order[..|order| - 1]), order[|order| - 1];
      if at in s1.lanes && at in m {
        CommitPasses(at, s1.lanes[at], m[at]);
        PassTicket(s1, Committed(s, m, order), at, CommitLane(at, s1.lanes[at], m[at]).1, id, k);
      }
    }
  }

  // ---- runs --------------------------------------------------------------------------------------------

  lemma SendingTicket(s: State, op: Op, id: LaneID, k: nat)
    requires TicketOK(s, id, k) && (op.DoEmit? || op.DoCommitted?)
    ensures TicketOK(Step(s, op), id, k)
  {
    if op.DoEmit? {
      EmitTicket(s, op.order, id, k);
    } else {
      CommittedTicket(s, op.positions, op.order, id, k);
    }
  }

  lemma StepTicket(s: State, op: Op, id: LaneID, k: nat)
    requires Inv(s) && TicketOK(s, id, k)
    ensures TicketOK(Step(s, op), id, k)
  {
    if Plain(op) {
      PlainTicket(s, op, id, k);
    } else if op.DoAdmit? {
      AdmitTicket(s, op.batch, id, k);
    } else if op.DoSettle? {
      SettleTicket(s, op.outcomes, id, k);
    } else {
      SendingTicket(s, op, id, k);
    }
  }

  lemma {:induction false} NoneCounted(acks: seq<Ack>, id: LaneID, k: nat)
    requires forall i :: 0 <= i < |acks| ==> acks[i].lane != id
    ensures SentCount(acks, id, k) == 0
  {
    if acks == [] {
    } else {
      NoneCounted(acks[..|acks| - 1], id, k);
    }
  }

  lemma NewTicket(s: State, op: Op, id: LaneID, k: nat)
    requires Inv(s) && id !in s.lanes && id in Step(s, op).lanes
    ensures TicketOK(Step(s, op), id, k)
  {
    Joins(s, op, id);
    NoneCounted(s.acks, id, k);
  }

  lemma {:induction false} ExecTicket(s: State, ops: seq<Op>, id: LaneID, k: nat)
    requires Inv(s) && id !in s.lanes && id in Exec(s, ops).lanes
    ensures TicketOK(Exec(s, ops), id, k)
  {
    var s1, op := Exec(s, ops[..|ops| - 1]), ops[|ops| - 1];
    ExecKeeps(s, ops[..|ops| - 1]);
    if id in s1.lanes {
      ExecTicket(s, ops[..|ops| - 1], id, k);
      StepTicket(s1, op, id, k);
    } else {
      NewTicket(s1, op, id, k);
    }
  }

  /** Two acknowledgements of a lane together count a ticket no more often than all of them do. */
  lemma {:induction false} TwoCount(acks: seq<Ack>, id: LaneID, k: nat, i: nat, j: nat)
    requires i <= j < |acks| && acks[i].lane == id && acks[j].lane == id
    ensures Count(acks[j].tickets, k) + (if i < j then Count(acks[i].tickets, k) else 0) <= SentCount(acks, id, k)
  {
    var init := acks[..|acks| - 1];
    if j < |acks| - 1 {
      TwoCount(init, id, k, i, j);
    } else if i < j {
      TwoCount(init, id, k, i, i);
    }
  }

  /**
   Over every run: the tickets an acknowledgement counts are those of admissions whose records have
   all had their outcomes, each once, and no two acknowledgements of a lane count the same one.
   */
  lemma EachGroupCountedOnce(ops: seq<Op>, i: nat, j: nat, k: nat)
    requires var acks := Exec(Initial(), ops).acks;
             i <= j < |acks| && acks[i].lane == acks[j].lane && k in acks[j].tickets
    ensures var s := Exec(Initial(), ops);
            && s.acks[j].lane in s.lanes && SettledTicket(s.lanes[s.acks[j].lane], k)
            && Count(s.acks[j].tickets, k) == 1
            && (i < j ==> k !in s.acks[i].tickets)
  {
    InitialInv();
    ExecKeeps(Initial(), ops);
    var s := Exec(Initial(), ops);
    var id := s.acks[j].lane;
    ExecTicket(Initial(), ops, id, k);
    TwoCount(s.acks, id, k, i, j);
    CountIn(s.acks[j].tickets, k);
    CountIn(s.acks[i].tickets, k);
  }

  /**
   Over every run: once a lane is revoked while held under epoch e, every acknowledgement sent for it
   afterwards carries an epoch above e; its records are exactly those of the admissions it counts,
   each counted once and by no other acknowledgement of the lane, each wholly settled, and each made
   above e. Epoch zero is fenced as one.
   */
  lemma RevokedAcksCountLaterGroups(ops: seq<Op>, id: LaneID, more: seq<Op>, j: nat)
    requires id in Exec(Initial(), ops).lanes
    requires var s0 := Exec(Initial(), ops);
             var s := Exec(Revoke(s0, id), more);
             |s0.acks| <= j < |s.acks| && s.acks[j].lane == id
    ensures var s0 := Exec(Initial(), ops);
            var s := Exec(Revoke(s0, id), more);
            var e, ack := Max(s0.lanes[id].epoch, 1), s.acks[j];
            && id in s.lanes
            && AckAbove(s.lanes[id], ack, e)
            && (forall k :: k in ack.tickets ==> SettledTicket(s.lanes[id], k) && Count(ack.tickets, k) == 1)
            && (forall i, k :: 0 <= i < |s.acks| && i != j && s.acks[i].lane == id && k in ack.tickets ==>
                  k !in s.acks[i].tickets)
  {
    RevokedStaysFenced(ops, id, more, j);
    ExecOn(Initial(), ops, DoRevoke(id), more);
    var all := ops + [DoRevoke(id)] + more;
    var s := Exec(Initial(), all);
    forall k | k in s.acks[j].tickets
      ensures SettledTicket(s.lanes[id], k) && Count(s.acks[j].tickets, k) == 1
    {
      EachGroupCountedOnce(all, j, j, k);
    }
    forall i, k | 0 <= i < |s.acks| && i != j && s.acks[i].lane == id && k in s.acks[j].tickets
      ensures k !in s.acks[i].tickets
    {
      if i < j {
        EachGroupCountedOnce(all, i, j, k);
      } else if k in s.acks[i].tickets {
        EachGroupCountedOnce(all, j, i, k);
      }
    }
  }

  lemma {:induction false} ExecOn(s: State, ops: seq<Op>, op: Op, more: seq<Op>)
    ensures Exec(s, ops + [op] + more) == Exec(Step(Exec(s, ops), op), more)
  {
    var all := ops + [op] + more;
    if more == [] {
      assert all[..|all| - 1] == ops;
    } else {
      ExecOn(s, ops, op, more[..|more| - 1]);
      assert all[..|all| - 1] == ops + [op] + more[..|more| - 1];
    }
  }
}
