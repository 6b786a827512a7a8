/** What acknowledgements carry: records, delivery handles and the end of a lane. */
module LedgerAcks {
  import opened Wrappers
  import opened Records
  import opened LedgerSpec
  import opened LedgerInv
  import opened LedgerRuns
  import opened Counting
  import F = LedgerFence
  import T = TrackerSpec

  // ---- records -----------------------------------------------------------------------------------

  /**
   Over every run, each record a lane has read is shed, in an open group, settled and waiting for
   an acknowledgement, in an acknowledgement that went out, or withheld; never two of these.
   */
  lemma RecordsConserved(ops: seq<Op>, id: LaneID)
    requires id in Exec(Initial(), ops).lanes
    ensures var s := Exec(Initial(), ops);
            var st := s.lanes[id];
            && st.recordsRead == st.shed + Total(s.groups, id, Records) + st.ackRecords
                                 + AckedRecords(s.acks, id) + st.history.withheld
            && st.recordsCommitted == AckedRecords(s.acks, id)
            && st.pending == Total(s.groups, id, Groups)
  {
    InitialInv();
    ExecKeeps(Initial(), ops);
    assert LaneBalanced(Exec(Initial(), ops), id);
  }

  // ---- the end of a lane ---------------------------------------------------------------------------

  /** Over every run, at most one acknowledgement of a lane says it is finished, and it is the last. */
  lemma FinalAckIsLast(ops: seq<Op>, i: nat, j: nat)
    requires i < j < |Exec(Initial(), ops).acks|
    requires Exec(Initial(), ops).acks[i].lane == Exec(Initial(), ops).acks[j].lane
    ensures !Exec(Initial(), ops).acks[i].laneFinished
  {
    InitialInv();
    ExecKeeps(Initial(), ops);
    assert NotFinalBefore(Exec(Initial(), ops).acks, i, j);
  }

  /** Emitting leaves the groups and every lane's count of them alone. */
  predicate SameOpen(s: State, s': State) {
    && s'.groups == s.groups
    && s'.lanes.Keys == s.lanes.Keys
    && |s.acks| <= |s'.acks| && s'.acks[..|s.acks|] == s.acks
    && (forall id :: id in s.lanes ==> s'.lanes[id].pending == s.lanes[id].pending)
    && (forall j :: |s.acks| <= j < |s'.acks| ==> FinalDrained(s, s'.acks[j]))
  }

  predicate FinalDrained(s: State, ack: Ack) {
    ack.lane in s.lanes && (ack.laneFinished ==> s.lanes[ack.lane].pending == 0)
  }

  lemma SameOpenOn(s: State, s1: State, id: LaneID, st: Lane, out: seq<Ack>)
    requires SameOpen(s, s1) && id in s1.lanes && st.pending == s1.lanes[id].pending
    requires forall j :: 0 <= j < |out| ==> FinalDrained(s1, out[j])
    ensures SameOpen(s, SetLane(s1, id, st).(acks := s1.acks + out))
  {
    var s' := SetLane(s1, id, st).(acks := s1.acks + out);
    forall j | |s.acks| <= j < |s'.acks|
      ensures FinalDrained(s, s'.acks[j])
    {
      assert j < |s1.acks| ==> FinalDrained(s, s1.acks[j]);
      assert j >= |s1.acks| ==> FinalDrained(s1, out[j - |s1.acks|]);
    }
  }

  lemma {:induction false} EmitSameOpen(s: State, order: seq<LaneID>)
    ensures SameOpen(s, EmitDiscrete(s, order))
  {
    if order == [] {
    } else {
      EmitSameOpen(s, order[..|order| - 1]);
      var s1, id := EmitDiscrete(s, order[..|order| - 1]), order[|order| - 1];
      if id in s1.lanes {
        SameOpenOn(s, s1, id, EmitLane(id, s1.lanes[id]).0, EmitLane(id, s1.lanes[id]).1);
      }
    }
  }

  lemma {:induction false} CommittedSameOpen(s: State, m: map<LaneID, Position>, order: seq<LaneID>)
    ensures SameOpen(s, Committed(s, m, order))
  {
    if order == [] {
    } else {
      CommittedSameOpen(s, m, order[..|order| - 1]);
      var s1, id := Committed(s, m, order[..|order| - 1]), order[|order| - 1];
      if id in s1.lanes && id in m {
        SameOpenOn(s, s1, id, CommitLane(id, s1.lanes[id], m[id]).0, CommitLane(id, s1.lanes[id], m[id]).1);
      }
    }
  }

  /** Over every run, whatever step sends a final acknowledgement, the lane has no group open. */
  lemma FinalAckIsDrained(ops: seq<Op>, op: Op, j: nat, g: GroupID)
    requires var s := Exec(Initial(), ops);
             var s' := Step(s, op);
             && |s.acks| <= j < |s'.acks| && s'.acks[j].laneFinished
             && g in s.groups
    ensures var s := Exec(Initial(), ops);
            Step(s, op).groups == s.groups && s.groups[g].lane != Step(s, op).acks[j].lane
  {
    InitialInv();
    ExecKeeps(Initial(), ops);
    DrainedStep(Exec(Initial(), ops), op, j, g);
  }

  lemma DrainedStep(s: State, op: Op, j: nat, g: GroupID)
    requires Inv(s) && |s.acks| <= j < |Step(s, op).acks| && Step(s, op).acks[j].laneFinished && g in s.groups
    ensures Step(s, op).groups == s.groups && s.groups[g].lane != Step(s, op).acks[j].lane
  {
    if op.DoEmit? {
      EmitSameOpen(s, op.order);
    } else if op.DoCommitted? {
      CommittedSameOpen(s, op.positions, op.order);
    } else {
      F.QuietAcks(s, op);
    }
    var id := s.groups[g].lane;
    assert FinalDrained(s, Step(s, op).acks[j]);
    if Step(s, op).acks[j].lane == id {
      assert LaneBalanced(s, id);
      TotalRemove(s.groups, g, id, Groups);
    }
  }

  // ---- handles -------------------------------------------------------------------------------------

  /** What an acknowledgement carries of a handle, as landed or as abandoned, and how many it says were given up. */
  function Carries(a: Ack, m: Measure): nat {
    match m
    case GivenUp => a.abandoned
    case Landed(h) => Count(a.handles, h)
    case Dropped(h) => Count(a.abandonedHandles, h)
    case _ => 0
  }

  function Sent(acks: seq<Ack>, id: LaneID, m: Measure): nat {
    if acks == [] then 0
    else Sent(acks[..|acks| - 1], id, m) + if acks[|acks| - 1].lane == id then Carries(acks[|acks| - 1], m) else 0
  }

  /** How many records were admitted with handle h. */
  function AllGiven(given: seq<map<RecordID, Handle>>, h: Handle): nat {
    if given == [] then 0 else AllGiven(given[..|given| - 1], h) + Given(given[|given| - 1], h)
  }

  /** What a lane's own books say is in its open groups or was sent, of one handle or of what was given up. */
  function Book(st: Lane, m: Measure): int {
    match m
    case GivenUp => st.shed + st.history.gaveUp - st.ackAbandoned - st.history.unreported
    case Waiting(h) => AllGiven(st.history.given, h) - Count(st.history.landed, h) - Count(st.history.dropped, h)
    case Landed(h) => Count(st.history.landed, h) - Count(st.settledHandles, h) - Count(st.history.lostLanded, h)
    case Dropped(h) => Count(st.history.dropped, h) - Count(st.abandonedHandles, h) - Count(st.history.lostDropped, h)
    case _ => 0
  }

  /** The measure is about a handle, or about what was given up. */
  predicate Booked(m: Measure) { m.Waiting? || m.Landed? || m.Dropped? || m.GivenUp? }

  /** Nothing a lane was given is forgotten or duplicated. */
  ghost predicate Kept(s: State, id: LaneID, m: Measure) {
    id in s.lanes && Book(s.lanes[id], m) == Total(s.groups, id, m) + Sent(s.acks, id, m)
  }

  lemma GivenRemove(m: map<RecordID, Handle>, r: RecordID, h: Handle)
    requires r in m
    ensures Given(m, h) == Given(m - {r}, h) + if m[r] == h then 1 else 0
  {
    if m[r] == h {
      assert Holders(m, h) == Holders(m - {r}, h) + {r};
    } else {
      assert Holders(m, h) == Holders(m - {r}, h);
    }
  }

  lemma DropAckBook(st: Lane, m: Measure)
    ensures Book(DropAck(st), m) == Book(st, m)
  {
    match m
    case Landed(h) => CountAppend(st.history.lostLanded, st.settledHandles, h);
    case Dropped(h) => CountAppend(st.history.lostDropped, st.abandonedHandles, h);
    case _ =>
  }

  // ---- handles in a settlement -----------------------------------------------------------------------

  /** Whether the outcome makes handle h land, or drops it. */
  function Moved(g: Group, o: Outcome, h: Handle, landed: bool): nat {
    if o.record in g.handles && g.handles[o.record] == h && (o.disposition != Abandoned) == landed then 1 else 0
  }

  /** What the outcome adds to a measure. */
  function Change(g: Group, o: Outcome, m: Measure): int {
    match m
    case GivenUp => if o.disposition == Abandoned then 1 else 0
    case Waiting(h) => 0 - Moved(g, o, h, true) - Moved(g, o, h, false)
    case Landed(h) => Moved(g, o, h, true)
    case Dropped(h) => Moved(g, o, h, false)
    case _ => 0
  }

  lemma GroupMoves(g: Group, o: Outcome, m: Measure)
    requires Booked(m)
    ensures Share(SettleGroup(g, o), g.lane, m) == Share(g, g.lane, m) + Change(g, o, m)
  {
    if o.record in g.handles && !m.GivenUp? {
      GivenRemove(g.handles, o.record, m.h);
      CountOne(g.landed, g.handles[o.record], m.h);
      CountOne(g.dropped, g.handles[o.record], m.h);
    }
  }

  lemma HistoryMoves(p: History, g: Group, o: Outcome, h: Handle)
    requires g.ticket < |p.admissions|
    ensures var q := Record(p, g, o);
            && q.given == p.given && q.lostLanded == p.lostLanded && q.lostDropped == p.lostDropped
            && Count(q.landed, h) == Count(p.landed, h) + Moved(g, o, h, true)
            && Count(q.dropped, h) == Count(p.dropped, h) + Moved(g, o, h, false)
  {
    if o.record in g.handles {
      CountOne(p.landed, g.handles[o.record], h);
      CountOne(p.dropped, g.handles[o.record], h);
    }
  }

  /** An outcome moves its record's handle, in the group and in the lane's history alike. */
  lemma NotedBook(st: Lane, g: Group, o: Outcome, m: Measure)
    requires g.ticket < |st.log| && g.ticket < |st.history.admissions| && Booked(m)
    ensures Book(Noted(st, g, o), m) == Book(st, m) + Change(g, o, m)
  {
    if !m.GivenUp? {
      HistoryMoves(st.history, g, o, m.h);
    }
  }

  /** Where closing puts the handles of a group: with the lane's own, or among the lost. */
  predicate HandedOver(st: Lane, t: Lane, g: Group) {
    && t.history.given == st.history.given && t.shed == st.shed && t.history.gaveUp == st.history.gaveUp
    && t.history.landed == st.history.landed && t.history.dropped == st.history.dropped
    && (LostToFence(st, t, g) || KeptForAck(st, t, g))
  }

  predicate LostToFence(st: Lane, t: Lane, g: Group) {
    && t.settledHandles == st.settledHandles && t.abandonedHandles == st.abandonedHandles
    && t.ackAbandoned == st.ackAbandoned && t.history.unreported == st.history.unreported + g.abandoned
    && t.history.lostLanded == st.history.lostLanded + g.landed
    && t.history.lostDropped == st.history.lostDropped + g.dropped
  }

  predicate KeptForAck(st: Lane, t: Lane, g: Group) {
    && t.history.lostLanded == st.history.lostLanded && t.history.lostDropped == st.history.lostDropped
    && t.ackAbandoned == st.ackAbandoned + g.abandoned && t.history.unreported == st.history.unreported
    && t.settledHandles == st.settledHandles + g.landed
    && t.abandonedHandles == st.abandonedHandles + g.dropped
  }

  lemma CloseLoses(st: Lane, g: Group)
    requires st.pending > 0 && st.FencedEpoch(g.epoch)
    ensures LostToFence(st, CloseGroup(st, g), g)
  {}

  lemma CloseKeeps(st: Lane, g: Group)
    requires st.pending > 0 && !st.FencedEpoch(g.epoch)
    requires st.ordering == Prefix ==> g.landed == [] && g.dropped == []
    ensures KeptForAck(st, CloseGroup(st, g), g)
  {}

  lemma CloseHandsOver(st: Lane, g: Group)
    requires st.pending > 0 && (st.ordering == Prefix ==> g.landed == [] && g.dropped == [])
    ensures HandedOver(st, CloseGroup(st, g), g)
  {
    if st.FencedEpoch(g.epoch) {
      CloseLoses(st, g);
    } else {
      CloseKeeps(st, g);
    }
  }

  /** A complete group has no handle waiting; its others go to the lane, or are lost to the fence. */
  lemma ClosedBook(st: Lane, t: Lane, g: Group, m: Measure)
    requires HandedOver(st, t, g) && g.handles == map[] && Booked(m)
    ensures Book(t, m) == Book(st, m) - Share(g, g.lane, m)
  {
    match m
    case GivenUp =>
    case Waiting(h) => assert Holders(g.handles, h) == {};
    case Landed(h) =>
      CountAppend(st.history.lostLanded, g.landed, h);
      CountAppend(st.settledHandles, g.landed, h);
    case Dropped(h) =>
      CountAppend(st.history.lostDropped, g.dropped, h);
      CountAppend(st.abandonedHandles, g.dropped, h);
  }

  lemma CompleteEmpty(st: Lane, g: Group, o: Outcome)
    requires LaneOK(st) && GroupOK(st, g) && o.record in st.history.admissions[g.ticket].left
    requires Complete(SettleGroup(g, o))
    ensures SettleGroup(g, o).handles == map[]
    ensures st.ordering == Prefix ==> SettleGroup(g, o).landed == [] && SettleGroup(g, o).dropped == []
  {
    var left := st.history.admissions[g.ticket].left;
    OneFewer(left, o.record);
    assert |left| == 1;
    assert SettleGroup(g, o).handles.Keys <= left - {o.record};
  }

  lemma LaneAfterBook(st: Lane, g: Group, o: Outcome, m: Measure)
    requires LaneOK(st) && GroupOK(st, g) && st.pending > 0 && Booked(m)
    requires o.record in st.history.admissions[g.ticket].left
    ensures Book(LaneAfter(st, g, o), m) == Book(st, m) - Share(g, g.lane, m)
              + if Complete(SettleGroup(g, o)) then 0 else Share(SettleGroup(g, o), g.lane, m)
  {
    GroupMoves(g, o, m);
    NotedBook(st, g, o, m);
    if Complete(SettleGroup(g, o)) {
      CompleteEmpty(st, g, o);
      CloseHandsOver(Noted(st, g, o), SettleGroup(g, o));
      ClosedBook(Noted(st, g, o), LaneAfter(st, g, o), SettleGroup(g, o), m);
    }
  }

  lemma GroupsAfterTotal(groups: map<GroupID, Group>, gid: GroupID, o: Outcome, id: LaneID, m: Measure)
    requires gid in groups
    ensures Total(GroupsAfter(groups, gid, o), id, m) == Total(groups, id, m) - Share(groups[gid], id, m)
              + if Complete(SettleGroup(groups[gid], o)) then 0 else Share(SettleGroup(groups[gid], o), id, m)
  {
    TotalRemove(groups, gid, id, m);
    TotalUpdate(groups, gid, SettleGroup(groups[gid], o), id, m);
  }

  lemma SettleOneHandles(s: State, o: Outcome, id: LaneID, m: Measure)
    requires Inv(s) && Kept(s, id, m) && Booked(m)
    ensures Kept(SettleOne(s, o).0, id, m)
  {
    if Settles(s, o) {
      var gid := s.byRec[o.record];
      GroupsAfterTotal(s.groups, gid, o, id, m);
      if s.groups[gid].lane == id {
        OwnHandles(s, gid, o, m);
      } else {
        OtherLane(s, o, id);
      }
    }
  }

  /** The lane of the outcome's own group. */
  lemma OwnHandles(s: State, gid: GroupID, o: Outcome, m: Measure)
    requires Inv(s) && Booked(m) && o.record in s.byRec && s.byRec[o.record] == gid
    ensures gid in s.groups && Settles(s, o)
    ensures var g := s.groups[gid];
            var t := SettleOne(s, o).0;
            && g.lane in t.lanes && t.groups == GroupsAfter(s.groups, gid, o) && t.acks == s.acks
            && Book(t.lanes[g.lane], m) == Book(s.lanes[g.lane], m) - Share(g, g.lane, m)
                 + if Complete(SettleGroup(g, o)) then 0 else Share(SettleGroup(g, o), g.lane, m)
  {
    GroupIndexed(s, gid);
    LaneAfterBook(s.lanes[s.groups[gid].lane], s.groups[gid], o, m);
  }

  lemma {:induction false} SettleAllHandles(s: State, outs: seq<Outcome>, id: LaneID, m: Measure)
    requires Inv(s) && Kept(s, id, m) && Booked(m)
    ensures Kept(SettleAll(s, outs).0, id, m)
  {
    if outs == [] {
    } else {
      SettleAllHandles(s, outs[..|outs| - 1], id, m);
      SettleAllKeeps(s, outs[..|outs| - 1]);
      SettleOneHandles(SettleAll(s, outs[..|outs| - 1]).0, outs[|outs| - 1], id, m);
    }
  }

  /** The same lane, as far as handles and what was given up go; shedding counts on both sides of the books. */
  predicate SameHandles(st: Lane, t: Lane) {
    && t.history.gaveUp == st.history.gaveUp && t.history.unreported == st.history.unreported
    && t.shed - t.ackAbandoned == st.shed - st.ackAbandoned
    && t.history.given == st.history.given
    && t.history.landed == st.history.landed && t.history.dropped == st.history.dropped
    && t.history.lostLanded == st.history.lostLanded && t.history.lostDropped == st.history.lostDropped
    && t.settledHandles == st.settledHandles && t.abandonedHandles == st.abandonedHandles
  }

  lemma {:induction false} PublishAllHandles(s: State, advances: seq<Advance>, id: LaneID)
    requires id in s.lanes
    ensures var s' := PublishAll(s, advances);
            id in s'.lanes && SameHandles(s.lanes[id], s'.lanes[id]) && s'.groups == s.groups && s'.acks == s.acks
  {
    if advances == [] {
    } else {
      PublishAllHandles(s, advances[..|advances| - 1], id);
    }
  }

  lemma SettleHandles(s: State, outs: seq<Outcome>, id: LaneID, m: Measure)
    requires Inv(s) && Kept(s, id, m) && Booked(m)
    ensures Kept(Settle(s, outs), id, m)
  {
    SettleAllHandles(s, outs, id, m);
    PublishAllHandles(SettleAll(s, outs).0, SettleAll(s, outs).1, id);
  }

  // ---- handles in an acknowledgement ------------------------------------------------------------------

  lemma SentOne(acks: seq<Ack>, a: Ack, id: LaneID, m: Measure)
    ensures Sent(acks + [a], id, m) == Sent(acks, id, m) + if a.lane == id then Carries(a, m) else 0
  {
    assert (acks + [a])[..|acks|] == acks;
  }

  lemma AckedBook(id: LaneID, st: Lane, through: Option<Position>, m: Measure)
    ensures Book(Acked(st), m) == Book(st, m) + Carries(MakeAck(id, st, through), m)
  {}

  /** What emitting may do to a lane, as far as handles go. */
  predicate Emits(at: LaneID, st: Lane, t: Lane, out: seq<Ack>, through: Option<Position>) {
    || (out == [] && (SameHandles(st, t) || SameHandles(DropAck(st), t)))
    || (out == [MakeAck(at, st, through)] && SameHandles(Acked(st), t))
  }

  lemma EmitsBook(at: LaneID, st: Lane, t: Lane, out: seq<Ack>, through: Option<Position>, acks: seq<Ack>, m: Measure)
    requires Emits(at, st, t, out, through)
    ensures Book(t, m) - Sent(acks + out, at, m) == Book(st, m) - Sent(acks, at, m)
  {
    if out == [] {
      assert acks + out == acks;
      DropAckBook(st, m);
    } else {
      SentOne(acks, out[0], at, m);
      AckedBook(at, st, through, m);
    }
  }

  lemma EmittedHandles(s: State, at: LaneID, t: Lane, out: seq<Ack>, through: Option<Position>, id: LaneID, m: Measure)
    requires Kept(s, id, m) && at in s.lanes && Emits(at, s.lanes[at], t, out, through)
    ensures Kept(SetLane(s, at, t).(acks := s.acks + out), id, m)
  {
    if at == id {
      EmitsBook(at, s.lanes[at], t, out, through, s.acks, m);
    } else if out == [] {
      assert s.acks + out == s.acks;
    } else {
      SentOne(s.acks, out[0], id, m);
    }
  }

  lemma {:induction false} EmitHandles(s: State, order: seq<LaneID>, id: LaneID, m: Measure)
    requires Kept(s, id, m)
    ensures Kept(EmitDiscrete(s, order), id, m)
  {
    if order == [] {
    } else {
      EmitHandles(s, order[..|order| - 1], id, m);
      var s1, at := EmitDiscrete(s, order[..|order| - 1]), order[|order| - 1];
      if at in s1.lanes {
        EmittedHandles(s1, at, EmitLane(at, s1.lanes[at]).0, EmitLane(at, s1.lanes[at]).1, None, id, m);
      }
    }
  }

  lemma CommitEmits(at: LaneID, st: Lane, pos: Position)
    ensures Emits(at, st, CommitLane(at, st, pos).0, CommitLane(at, st, pos).1, Some(pos))
  {}

  lemma {:induction false} CommittedHandles(s: State, p: map<LaneID, Position>, order: seq<LaneID>, id: LaneID,
                                            m: Measure)
    requires Kept(s, id, m)
    ensures Kept(Committed(s, p, order), id, m)
  {
    if order == [] {
    } else {
      CommittedHandles(s, p, order[..|order| - 1], id, m);
      var s1, at := Committed(s, p, order[..|order| - 1]), order[|order| - 1];
      if at in s1.lanes && at in p {
        CommitEmits(at, s1.lanes[at], p[at]);
        EmittedHandles(s1, at, CommitLane(at, s1.lanes[at], p[at]).0, CommitLane(at, s1.lanes[at], p[at]).1,
            Some(p[at]), id, m);
      }
    }
  }

  lemma RevokeHandles(s: State, at: LaneID, id: LaneID, m: Measure)
    requires Kept(s, id, m)
    ensures Kept(Revoke(s, at), id, m)
  {
    if at in s.lanes {
      EmittedHandles(s, at, RevokeLane(s.lanes[at]), [], None, id, m);
      assert s.acks + [] == s.acks;
    }
  }

  // ---- handles over runs --------------------------------------------------------------------------------

  /** A batch that opens no group brings no handle; one that does brings those its group waits for. */
  predicate Brings(s: State, s': State, b: Batch)
    requires b.lane in s.lanes
  {
    && s'.acks == s.acks && b.lane in s'.lanes
    && s'.lanes == s.lanes[b.lane := s'.lanes[b.lane]]
    && var st, t, g := s.lanes[b.lane], s'.lanes[b.lane], NewGroup(s.lanes[b.lane], b);
       || (s'.groups == s.groups && SameHandles(st, t))
       || (b.group !in s.groups && s'.groups == s.groups[b.group := g]
           && SameHandles(st.(history := st.history.(given := st.history.given + [g.handles])), t))
  }

  lemma HeldBrings(s: State, b: Batch)
    requires b.lane in s.lanes
    ensures Brings(s, AdmitHeld(s, b).0, b)
  {
    var pos := Stamp(s, b);
    var st := s.lanes[b.lane].(seqno := pos.seqno);
    if b.records == [] {
      assert AdmitHeld(s, b).0 == SetLane(s, b.lane, AdmitIdle(st, pos, Admission(Empty, {}, {}, st.epoch)));
    } else if T.Admits(st.log, st.budget, |b.records|) {
      assert AdmitHeld(s, b).0 == OpenGroup(s, st, b, pos).0;
      OpenBrings(s, st, b, pos);
    } else if Sheds(st.whenFull) {
      assert AdmitHeld(s, b).0 == SetLane(s, b.lane, ShedBatch(st, b, pos));
    } else {
      assert AdmitHeld(s, b).0 == SetLane(s, b.lane, st);
    }
  }

  lemma OpenBrings(s: State, st: Lane, b: Batch, pos: Position)
    requires b.lane in s.lanes && SameHandles(s.lanes[b.lane], st) && NewGroup(st, b) == NewGroup(s.lanes[b.lane], b)
    ensures Brings(s, OpenGroup(s, st, b, pos).0, b)
  {}

  lemma AdmitBrings(s: State, b: Batch, id: LaneID, m: Measure)
    requires Kept(s, id, m) && Booked(m)
    ensures Kept(Admit(s, b).0, id, m)
  {
    if Admit(s, b).0 != s {
      HeldBrings(s, b);
      AdmitHandles(s, AdmitHeld(s, b).0, b, id, m);
      assert Admit(s, b).0 == AdmitHeld(s, b).0;
    }
  }

  lemma GivenBook(st: Lane, t: Lane, g: Group, m: Measure)
    requires SameHandles(st.(history := st.history.(given := st.history.given + [g.handles])), t)
    requires g.landed == [] && g.dropped == [] && g.abandoned == 0 && Booked(m)
    ensures Book(t, m) == Book(st, m) + Share(g, g.lane, m)
  {
    assert t.history.given[..|st.history.given|] == st.history.given;
  }

  lemma AdmitHandles(s: State, s': State, b: Batch, id: LaneID, m: Measure)
    requires Kept(s, id, m) && Booked(m) && b.lane in s.lanes && Brings(s, s', b)
    ensures Kept(s', id, m)
  {
    if s'.groups != s.groups {
      var g := NewGroup(s.lanes[b.lane], b);
      TotalAdd(s.groups, b.group, g, id, m);
      GivenBook(s.lanes[b.lane], s'.lanes[b.lane], g, m);
    }
  }

  /** Operations that only touch flags, epochs and offers. */
  predicate Quiet(op: Op) {
    op.DoRegister? || op.DoSetEpoch? || op.DoFinish? || op.DoRequestRetire? || op.DoRetirable? || op.DoFlushable?
  }

  lemma RequestHandles(s: State, at: LaneID, id: LaneID)
    requires id in s.lanes
    ensures var s' := RequestRetire(s, at).0; id in s'.lanes && SameHandles(s.lanes[id], s'.lanes[id])
  {}

  lemma EveryLaneHandles(st: Lane)
    ensures SameHandles(st, FlushLane(st)) && SameHandles(st, ReportRetired(st))
  {}

  lemma QuietHandles(s: State, op: Op, id: LaneID)
    requires id in s.lanes && Quiet(op)
    ensures id in Step(s, op).lanes && SameHandles(s.lanes[id], Step(s, op).lanes[id])
  {
    if op.DoFlushable? || op.DoRetirable? {
      EveryLaneHandles(s.lanes[id]);
    } else if op.DoRequestRetire? {
      RequestHandles(s, op.lane, id);
    }
  }

  lemma QuietKept(s: State, op: Op, id: LaneID, m: Measure)
    requires Kept(s, id, m) && Quiet(op)
    ensures Kept(Step(s, op), id, m)
  {
    QuietHandles(s, op, id);
  }

  lemma StepHandles(s: State, op: Op, id: LaneID, m: Measure)
    requires Inv(s) && Kept(s, id, m) && Booked(m)
    ensures Kept(Step(s, op), id, m)
  {
    match op
    case DoAdmit(b) => AdmitBrings(s, b, id, m);
    case DoSettle(outs) => SettleHandles(s, outs, id, m);
    case DoEmit(order) => EmitHandles(s, order, id, m);
    case DoCommitted(p, order) => CommittedHandles(s, p, order, id, m);
    case DoRevoke(at) => RevokeHandles(s, at, id, m);
    case _ => QuietKept(s, op, id, m);
  }

  lemma {:induction false} NoneSent(acks: seq<Ack>, id: LaneID, m: Measure)
    requires forall i :: 0 <= i < |acks| ==> acks[i].lane != id
    ensures Sent(acks, id, m) == 0
  {
    if acks == [] {
    } else {
      NoneSent(acks[..|acks| - 1], id, m);
    }
  }

  /** A lane that joins has been given nothing and sent nothing. */
  lemma NewHandles(s: State, op: Op, id: LaneID, m: Measure)
    requires Inv(s) && id !in s.lanes && id in Step(s, op).lanes && Booked(m)
    ensures Kept(Step(s, op), id, m)
  {
    F.Joins(s, op, id);
    NoGroups(s.groups, id, m);
    NoneSent(s.acks, id, m);
  }

  lemma {:induction false} ExecHandles(s: State, ops: seq<Op>, id: LaneID, m: Measure)
    requires Inv(s) && id !in s.lanes && id in Exec(s, ops).lanes && Booked(m)
    ensures Kept(Exec(s, ops), id, m)
  {
    var s1, op := Exec(s, ops[..|ops| - 1]), ops[|ops| - 1];
    ExecKeeps(s, ops[..|ops| - 1]);
    if id in s1.lanes {
      ExecHandles(s, ops[..|ops| - 1], id, m);
      StepHandles(s1, op, id, m);
    } else {
      NewHandles(s1, op, id, m);
    }
  }

  /**
   Over every run and for every handle: each record admitted with it is waiting for an outcome, or
   has landed, or was abandoned; and each handle whose record landed is in its open group, waits
   for an acknowledgement, was acknowledged as landed, or is lost to a fence or behind the final
   acknowledgement. The same holds of abandoned ones.
   */
  lemma HandlesConserved(ops: seq<Op>, id: LaneID, h: Handle)
    requires id in Exec(Initial(), ops).lanes
    ensures var s := Exec(Initial(), ops);
            var st, p := s.lanes[id], s.lanes[id].history;
            && AllGiven(p.given, h) == Total(s.groups, id, Waiting(h)) + Count(p.landed, h) + Count(p.dropped, h)
            && Count(p.landed, h) == Total(s.groups, id, Landed(h)) + Count(st.settledHandles, h)
                                      + Sent(s.acks, id, Landed(h)) + Count(p.lostLanded, h)
            && Count(p.dropped, h) == Total(s.groups, id, Dropped(h)) + Count(st.abandonedHandles, h)
                                       + Sent(s.acks, id, Dropped(h)) + Count(p.lostDropped, h)
  {
    InitialInv();
    ExecHandles(Initial(), ops, id, Waiting(h));
    ExecHandles(Initial(), ops, id, Landed(h));
    ExecHandles(Initial(), ops, id, Dropped(h));
    NothingWaitsSent(Exec(Initial(), ops).acks, id, h);
  }

  // ---- what was given up ------------------------------------------------------------------------------------

  /** Records of the lane that one call settles as abandoned: in flight at the time, with that outcome. */
  function AbandonedBy(s: State, outs: seq<Outcome>, id: LaneID): nat {
    if outs == [] then 0
    else
      var init, o := outs[..|outs| - 1], outs[|outs| - 1];
      var s1 := SettleAll(s, init).0;
      AbandonedBy(s, init, id)
      + if o.disposition == Abandoned && o.record in s1.byRec && s1.byRec[o.record] in s1.groups
           && s1.groups[s1.byRec[o.record]].lane == id then 1 else 0
  }

  /** The same over a run. */
  function AbandonedIn(s: State, ops: seq<Op>, id: LaneID): nat {
    if ops == [] then 0
    else
      var init, op := ops[..|ops| - 1], ops[|ops| - 1];
      AbandonedIn(s, init, id) + if op.DoSettle? then AbandonedBy(Exec(s, init), op.outcomes, id) else 0
  }

  lemma CloseGaveUp(st: Lane, g: Group)
    requires st.pending > 0
    ensures CloseGroup(st, g).history.gaveUp == st.history.gaveUp
  {}

  lemma SettleOneGaveUp(s: State, o: Outcome, id: LaneID)
    requires Inv(s) && id in s.lanes
    ensures var s' := SettleOne(s, o).0;
            && id in s'.lanes
            && s'.lanes[id].history.gaveUp == s.lanes[id].history.gaveUp
                 + if o.disposition == Abandoned && o.record in s.byRec && s.byRec[o.record] in s.groups
                      && s.groups[s.byRec[o.record]].lane == id then 1 else 0
  {
    SettlesInFlight(s, o);
    if Settles(s, o) {
      var g := s.groups[s.byRec[o.record]];
      CloseGaveUp(Noted(s.lanes[g.lane], g, o), SettleGroup(g, o));
    }
  }

  lemma {:induction false} SettleAllGaveUp(s: State, outs: seq<Outcome>, id: LaneID)
    requires Inv(s) && id in s.lanes
    ensures var s' := SettleAll(s, outs).0;
            && id in s'.lanes
            && s'.lanes[id].history.gaveUp == s.lanes[id].history.gaveUp + AbandonedBy(s, outs, id)
  {
    if outs == [] {
    } else {
      SettleAllGaveUp(s, outs[..|outs| - 1], id);
      SettleAllKeeps(s, outs[..|outs| - 1]);
      SettleOneGaveUp(SettleAll(s, outs[..|outs| - 1]).0, outs[|outs| - 1], id);
    }
  }

  lemma {:induction false} EmitGaveUp(s: State, order: seq<LaneID>, id: LaneID)
    requires id in s.lanes
    ensures id in EmitDiscrete(s, order).lanes
    ensures EmitDiscrete(s, order).lanes[id].history.gaveUp == s.lanes[id].history.gaveUp
  {
    if order == [] {
    } else {
      EmitGaveUp(s, order[..|order| - 1], id);
    }
  }

  lemma {:induction false} CommittedGaveUp(s: State, p: map<LaneID, Position>, order: seq<LaneID>, id: LaneID)
    requires id in s.lanes
    ensures id in Committed(s, p, order).lanes
    ensures Committed(s, p, order).lanes[id].history.gaveUp == s.lanes[id].history.gaveUp
  {
    if order == [] {
    } else {
      CommittedGaveUp(s, p, order[..|order| - 1], id);
    }
  }

  lemma AdmitGaveUp(s: State, b: Batch, id: LaneID)
    requires id in s.lanes
    ensures id in Admit(s, b).0.lanes && Admit(s, b).0.lanes[id].history.gaveUp == s.lanes[id].history.gaveUp
  {
    if Admit(s, b).0 != s {
      HeldBrings(s, b);
      assert Admit(s, b).0 == AdmitHeld(s, b).0;
    }
  }

  lemma SettleGaveUp(s: State, outs: seq<Outcome>, id: LaneID)
    requires Inv(s) && id in s.lanes
    ensures id in Settle(s, outs).lanes
    ensures Settle(s, outs).lanes[id].history.gaveUp == s.lanes[id].history.gaveUp + AbandonedBy(s, outs, id)
  {
    SettleAllGaveUp(s, outs, id);
    PublishAllHandles(SettleAll(s, outs).0, SettleAll(s, outs).1, id);
  }

  lemma RevokeGaveUp(s: State, at: LaneID, id: LaneID)
    requires id in s.lanes
    ensures id in Revoke(s, at).lanes && Revoke(s, at).lanes[id].history.gaveUp == s.lanes[id].history.gaveUp
  {}

  lemma StepGaveUp(s: State, op: Op, id: LaneID)
    requires Inv(s) && id in s.lanes
    ensures id in Step(s, op).lanes
    ensures Step(s, op).lanes[id].history.gaveUp ==
            s.lanes[id].history.gaveUp + if op.DoSettle? then AbandonedBy(s, op.outcomes, id) else 0
  {
    match op
    case DoAdmit(b) => AdmitGaveUp(s, b, id);
    case DoSettle(outs) => SettleGaveUp(s, outs, id);
    case DoEmit(order) => EmitGaveUp(s, order, id);
    case DoCommitted(p, order) => CommittedGaveUp(s, p, order, id);
    case DoRevoke(at) => RevokeGaveUp(s, at, id);
    case _ => QuietHandles(s, op, id);
  }

  /** A lane that is not there has no open group. */
  lemma {:induction false} NoneAbandoned(s: State, outs: seq<Outcome>, id: LaneID)
    requires Inv(s) && id !in s.lanes
    ensures AbandonedBy(s, outs, id) == 0
  {
    if outs == [] {
    } else {
      NoneAbandoned(s, outs[..|outs| - 1], id);
      SettleAllKeeps(s, outs[..|outs| - 1]);
      F.SettleAllLanes(s, outs[..|outs| - 1]);
    }
  }

  lemma {:induction false} NoneAbandonedIn(s: State, ops: seq<Op>, id: LaneID)
    requires Inv(s) && id !in s.lanes && id !in Exec(s, ops).lanes
    ensures AbandonedIn(s, ops, id) == 0
  {
    if ops == [] {
    } else {
      var init, op := ops[..|ops| - 1], ops[|ops| - 1];
      var s1 := Exec(s, init);
      ExecKeeps(s, init);
      if id in s1.lanes {
        StepGrows(s1, op, id);
      }
      NoneAbandonedIn(s, init, id);
      if op.DoSettle? {
        NoneAbandoned(s1, op.outcomes, id);
      }
    }
  }

  lemma {:induction false} ExecGaveUp(s: State, ops: seq<Op>, id: LaneID)
    requires Inv(s) && id !in s.lanes && id in Exec(s, ops).lanes
    ensures Exec(s, ops).lanes[id].history.gaveUp == AbandonedIn(s, ops, id)
  {
    var init, op := ops[..|ops| - 1], ops[|ops| - 1];
    var s1 := Exec(s, init);
    ExecKeeps(s, init);
    if id in s1.lanes {
      ExecGaveUp(s, init, id);
      StepGaveUp(s1, op, id);
    } else {
      F.Joins(s1, op, id);
      NoneAbandonedIn(s, init, id);
    }
  }

  /**
   Over every run: the records that were shed or settled as abandoned, counted from the outcomes given, are
   reported as abandoned by an acknowledgement that went out, wait for the next one, are in an open group,
   or go unreported behind a fence or the final acknowledgement; never two of these.
   */
  lemma AbandonedConserved(ops: seq<Op>, id: LaneID)
    requires id in Exec(Initial(), ops).lanes
    ensures var s := Exec(Initial(), ops);
            var st := s.lanes[id];
            st.shed + AbandonedIn(Initial(), ops, id) ==
            Sent(s.acks, id, GivenUp) + st.ackAbandoned + Total(s.groups, id, GivenUp) + st.history.unreported
  {
    InitialInv();
    ExecHandles(Initial(), ops, id, GivenUp);
    ExecGaveUp(Initial(), ops, id);
  }

  lemma {:induction false} NothingWaitsSent(acks: seq<Ack>, id: LaneID, h: Handle)
    ensures Sent(acks, id, Waiting(h)) == 0
  {
    if acks == [] {
    } else {
      NothingWaitsSent(acks[..|acks| - 1], id, h);
    }
  }

  /** So a handle given to one record is acknowledged at most once, and only as what became of it. */
  lemma HandleAckedOnce(ops: seq<Op>, id: LaneID, h: Handle)
    requires id in Exec(Initial(), ops).lanes && AllGiven(Exec(Initial(), ops).lanes[id].history.given, h) <= 1
    ensures var s := Exec(Initial(), ops);
            && Sent(s.acks, id, Landed(h)) + Sent(s.acks, id, Dropped(h)) <= 1
            && (Sent(s.acks, id, Landed(h)) == 1 ==>
                  Count(s.lanes[id].history.landed, h) == 1 && Count(s.lanes[id].history.dropped, h) == 0)
            && (Sent(s.acks, id, Dropped(h)) == 1 ==>
                  Count(s.lanes[id].history.dropped, h) == 1 && Count(s.lanes[id].history.landed, h) == 0)
  {
    HandlesConserved(ops, id, h);
  }
}
