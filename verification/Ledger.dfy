/** The ledger as the engine holds it: four tables updated in place by the public methods. */
module Ledgers {
  import opened Wrappers
  import opened Records
  import Spec = LedgerSpec
  import Inv = LedgerInv
  import T = TrackerSpec

  /** The sequence visits every lane of the set once. */
  predicate Visits(order: seq<LaneID>, ids: set<LaneID>) {
    && (forall i :: 0 <= i < |order| ==> order[i] in ids)
    && (forall id :: id in ids ==> id in order)
    && (forall i, j :: 0 <= i < j < |order| ==> order[i] != order[j])
  }

  lemma VisitsNext(order: seq<LaneID>, ids: set<LaneID>, id: LaneID)
    requires Visits(order, ids) && id !in ids
    ensures Visits(order + [id], ids + {id})
  {}

  lemma EmitNext(s: Spec.State, order: seq<LaneID>, id: LaneID)
    ensures var s1 := Spec.EmitDiscrete(s, order);
            Spec.EmitDiscrete(s, order + [id]) ==
            if id !in s1.lanes then s1
            else var (st, out) := Spec.EmitLane(id, s1.lanes[id]); Spec.SetLane(s1, id, st).(acks := s1.acks + out)
  {
    assert (order + [id])[..|order|] == order;
  }

  lemma CommittedNext(s: Spec.State, m: map<LaneID, Position>, order: seq<LaneID>, id: LaneID)
    requires id in m
    ensures var s1 := Spec.Committed(s, m, order);
            Spec.Committed(s, m, order + [id]) ==
            if id !in s1.lanes then s1
            else
              var (st, out) := Spec.CommitLane(id, s1.lanes[id], m[id]);
              Spec.SetLane(s1, id, st).(acks := s1.acks + out)
  {
    assert (order + [id])[..|order|] == order;
  }

  lemma MapNext(m: map<RecordID, GroupID>, rs: seq<Rec>, i: nat, g: GroupID)
    requires i < |rs|
    ensures Spec.MapRecords(m, Spec.Ids(rs[..i + 1]), g) == Spec.MapRecords(m, Spec.Ids(rs[..i]), g)[rs[i].id := g]
  {
    assert rs[..i + 1] == rs[..i] + [rs[i]];
    assert Spec.Ids(rs[..i + 1]) == Spec.Ids(rs[..i]) + {rs[i].id};
  }

  // ---- loops over the lane table, part way -----------------------------------------------------------

  type Lanes = map<LaneID, Spec.Lane>

  /** The lanes not yet visited are as they were. */
  ghost function Flushed(was: Lanes, todo: set<LaneID>): Lanes {
    map id | id in was :: if id in todo then was[id] else Spec.FlushLane(was[id])
  }

  ghost function Offered(was: Lanes, todo: set<LaneID>): map<LaneID, Position> {
    map id | id in was && id !in todo && Spec.Offers(was[id]) :: was[id].pendingFlush.value
  }

  lemma FlushedNext(was: Lanes, todo: set<LaneID>, id: LaneID)
    requires id in todo && todo <= was.Keys
    ensures Flushed(was, todo)[id] == was[id]
    ensures Flushed(was, todo - {id}) == Flushed(was, todo)[id := Spec.FlushLane(was[id])]
    ensures Offered(was, todo - {id}) ==
            if Spec.Offers(was[id]) then Offered(was, todo)[id := was[id].pendingFlush.value] else Offered(was, todo)
  {}

  lemma FlushedAll(s: Spec.State)
    ensures Spec.Flushable(s) == (s.(lanes := Flushed(s.lanes, {})), Offered(s.lanes, {}))
  {
    assert Spec.Flushable(s).0.lanes == Flushed(s.lanes, {});
    assert Spec.Flushable(s).1 == Offered(s.lanes, {});
  }

  ghost function Retired(was: Lanes, todo: set<LaneID>): Lanes {
    map id | id in was :: if id in todo then was[id] else Spec.ReportRetired(was[id])
  }

  ghost function Reported(was: Lanes, todo: set<LaneID>): set<LaneID> {
    set id | id in was && id !in todo && Spec.CanRetire(was[id])
  }

  lemma RetiredNext(was: Lanes, todo: set<LaneID>, id: LaneID)
    requires id in todo && todo <= was.Keys
    ensures Retired(was, todo)[id] == was[id]
    ensures Retired(was, todo - {id}) == Retired(was, todo)[id := Spec.ReportRetired(was[id])]
    ensures Reported(was, todo - {id}) ==
            if Spec.CanRetire(was[id]) then Reported(was, todo) + {id} else Reported(was, todo)
  {}

  lemma RetiredAll(s: Spec.State)
    ensures Spec.Retirable(s) == (s.(lanes := Retired(s.lanes, {})), Reported(s.lanes, {}))
  {
    assert Spec.Retirable(s).0.lanes == Retired(s.lanes, {});
    assert Spec.Retirable(s).1 == Reported(s.lanes, {});
  }

  class Ledger {
    var lanes: map<LaneID, Spec.Lane>
    var groups: map<GroupID, Spec.Group>
    var byRec: map<RecordID, GroupID>
    var acks: seq<Ack>

    ghost function State(): Spec.State
      reads this
    {
      Spec.State(lanes, groups, byRec, acks)
    }

    ghost predicate Valid()
      reads this
    {
      Inv.Inv(State())
    }

    constructor ()
      ensures Valid() && State() == Spec.Initial()
    {
      lanes, groups, byRec, acks := map[], map[], map[], [];
    }

    method RegisterLane(id: LaneID, ordering: Ordering, budget: nat, whenFull: WhenFull, dflt: nat)
      returns (err: Option<Spec.Error>)
      requires Valid()
      modifies this
      ensures Valid() && (State(), err) == Spec.RegisterLane(old(State()), id, ordering, budget, whenFull, dflt)
    {
      Inv.RegisterKeeps(State(), id, ordering, budget, whenFull, dflt);
      if id in lanes {
        if lanes[id].ordering != ordering {
          return Some(Spec.OrderingChanged);
        }
        return None;
      }
      var b := budget;
      if b < 1 {
        b := dflt;
      }
      lanes := lanes[id := Spec.NewLane(ordering, b, whenFull)];
      return None;
    }

    method SetEpoch(id: LaneID, epoch: nat)
      requires Valid()
      modifies this
      ensures Valid() && State() == Spec.SetEpoch(old(State()), id, epoch)
    {
      Inv.SetEpochKeeps(State(), id, epoch);
      if id in lanes {
        lanes := lanes[id := lanes[id].(epoch := epoch)];
      }
    }

    method FinishLane(id: LaneID)
      requires Valid()
      modifies this
      ensures Valid() && State() == Spec.FinishLane(old(State()), id)
    {
      Inv.FinishKeeps(State(), id);
      if id in lanes {
        lanes := lanes[id := lanes[id].(laneFinished := true)];
      }
    }

    method RequestRetire(id: LaneID) returns (now: bool)
      requires Valid()
      modifies this
      ensures Valid() && (State(), now) == Spec.RequestRetire(old(State()), id)
    {
      Inv.RequestRetireKeeps(State(), id);
      if id !in lanes {
        return true;
      }
      var st := lanes[id].(laneFinished := true, retireRequested := true);
      now := st.pending == 0;
      if now {
        st := st.(retireReported := true);
      }
      lanes := lanes[id := st];
    }

    method Retirable() returns (out: set<LaneID>)
      requires Valid()
      modifies this
      ensures Valid() && (State(), out) == Spec.Retirable(old(State()))
    {
      Inv.RetirableKeeps(State());
      RetiredAll(State());
      out := TakeRetirable();
    }

    method TakeRetirable() returns (out: set<LaneID>)
      modifies this`lanes
      ensures lanes == Retired(old(lanes), {}) && out == Reported(old(lanes), {})
    {
      ghost var was := lanes;
      out := {};
      var todo := lanes.Keys;
      while todo != {}
        invariant todo <= was.Keys && lanes == Retired(was, todo) && out == Reported(was, todo)
      {
        var id :| id in todo;
        RetiredNext(was, todo, id);
        todo := todo - {id};
        var st := lanes[id];
        if st.retireRequested && st.pending == 0 && !st.retireReported {
          lanes := lanes[id := st.(retireReported := true)];
          out := out + {id};
        }
      }
    }

    /** Reports how many records of the lane were still in flight. */
    method Revoke(id: LaneID) returns (unsettled: nat)
      requires Valid()
      modifies this
      ensures Valid() && State() == Spec.Revoke(old(State()), id)
      ensures unsettled == if id in old(lanes) then Inv.Total(groups, id, Inv.Records) else 0
    {
      Inv.RevokeKeeps(State(), id);
      unsettled := 0;
      if id !in lanes {
        return;
      }
      unsettled := InFlight(id);
      lanes := lanes[id := Spec.RevokeLane(lanes[id])];
    }

    method InFlight(id: LaneID) returns (n: nat)
      ensures n == Inv.Total(groups, id, Inv.Records)
    {
      n := 0;
      var todo := groups;
      while todo != map[]
        invariant n + Inv.Total(todo, id, Inv.Records) == Inv.Total(groups, id, Inv.Records)
        decreases |todo|
      {
        var g :| g in todo;
        Inv.TotalRemove(todo, g, id, Inv.Records);
        if todo[g].lane == id {
          n := n + todo[g].records;
        }
        todo := todo - {g};
      }
    }

    // ---- admission -------------------------------------------------------------------------------

    method Mislabelled(b: Batch) returns (bad: bool)
      ensures bad <==> exists r :: r in b.records && r.lane != b.lane
    {
      for i := 0 to |b.records|
        invariant forall j :: 0 <= j < i ==> b.records[j].lane == b.lane
      {
        if b.records[i].lane != b.lane {
          assert b.records[i] in b.records;
          return true;
        }
      }
      return false;
    }

    method HandlesOf(rs: seq<Rec>) returns (m: map<RecordID, Handle>)
      ensures m == Spec.Handles(rs)
    {
      m := map[];
      for i := 0 to |rs|
        invariant m == Spec.Handles(rs[..i])
      {
        assert rs[..i + 1][..i] == rs[..i];
        if rs[i].handle.Some? {
          m := m[rs[i].id := rs[i].handle.value];
        }
      }
      assert rs[..|rs|] == rs;
    }

    method MapRecords(rs: seq<Rec>, g: GroupID)
      modifies this`byRec
      ensures byRec == Spec.MapRecords(old(byRec), Spec.Ids(rs), g)
    {
      for i := 0 to |rs|
        invariant byRec == Spec.MapRecords(old(byRec), Spec.Ids(rs[..i]), g)
      {
        MapNext(old(byRec), rs, i, g);
        byRec := byRec[rs[i].id := g];
      }
      assert rs[..|rs|] == rs;
    }

    method Admit(b: Batch) returns (err: Option<Spec.Error>)
      requires Valid()
      modifies this
      ensures Valid() && (State(), err) == Spec.Admit(old(State()), b)
    {
      Inv.AdmitKeeps(State(), b);
      if b.lane !in lanes {
        return Some(Spec.Unregistered);
      }
      if lanes[b.lane].Fenced() {
        return Some(Spec.FencedOff);
      }
      var bad := Mislabelled(b);
      if bad {
        return Some(Spec.Mislabelled);
      }
      err := AdmitHeld(b);
    }

    method AdmitHeld(b: Batch) returns (err: Option<Spec.Error>)
      requires b.lane in lanes
      modifies this
      ensures (State(), err) == Spec.AdmitHeld(old(State()), b)
    {
      var st := lanes[b.lane];
      st := st.(seqno := st.seqno + 1);
      var pos := b.pos.(seqno := st.seqno);
      if b.records == [] {
        st := Idle(st, pos, Spec.Admission(Spec.Empty, {}, {}, st.epoch));
        lanes := lanes[b.lane := st];
        return None;
      }
      if T.Admits(st.log, st.budget, |b.records|) {
        err := Open(st, b, pos);
      } else if Spec.Sheds(st.whenFull) {
        st := Shed(st, b, pos);
        lanes := lanes[b.lane := st];
        err := Some(Spec.WasShed);
      } else {
        lanes := lanes[b.lane := st];
        err := Some(Spec.Cancelled);
      }
    }

    /** A position with no records takes its place, and is published if the prefix reaches it at once. */
    method Idle(st: Spec.Lane, pos: Position, a: Spec.Admission) returns (t: Spec.Lane)
      ensures t == Spec.AdmitIdle(st, pos, a)
    {
      var log := T.TrackResolved(st.log, pos);
      var moved := T.Advance(st.log, log);
      t := st.(log := log, history := st.history.(admissions := st.history.admissions + [a]));
      if moved.Some? {
        t := t.(resolved := moved);
        if moved.value.safe {
          t := t.(pendingFlush := moved);
        }
      }
    }

    /** The batch does not enter: its position advances, and its records count as abandoned. */
    method Shed(st: Spec.Lane, b: Batch, pos: Position) returns (t: Spec.Lane)
      ensures t == Spec.ShedBatch(st, b, pos)
    {
      var n, ids := |b.records|, Spec.Ids(b.records);
      t := Idle(st, pos, Spec.Admission(Spec.Shed, ids, ids, st.epoch));
      t := t.(recordsRead := t.recordsRead + n, shed := t.shed + n, ackAbandoned := t.ackAbandoned + n);
    }

    method Open(st: Spec.Lane, b: Batch, pos: Position) returns (err: Option<Spec.Error>)
      requires b.lane in lanes
      modifies this
      ensures (State(), err) == Spec.OpenGroup(old(State()), st, b, pos)
    {
      var ids := set r | r in b.records :: r.id;
      var log := T.Track(st.log, pos, |b.records|, |b.records|);
      if b.group in groups {
        lanes := lanes[b.lane := Spec.Append(st, T.Discharge(log, |st.log|, 0, true),
                                             Spec.Admission(Spec.Refused, ids, ids, st.epoch))];
        return Some(Spec.DuplicateGroup);
      }
      var handles := map[];
      if st.ordering == Discrete {
        handles := HandlesOf(b.records);
      }
      var n := |b.records|;
      groups := groups[b.group := Spec.Group(b.lane, st.epoch, |st.log|, n, n, handles, [], [], 0, 0)];
      var t := Spec.Append(st, log, Spec.Admission(Spec.Carried, ids, ids, st.epoch));
      lanes := lanes[b.lane := t.(pending := t.pending + 1, recordsRead := t.recordsRead + |b.records|,
                                  history := t.history.(given := t.history.given + [handles]))];
      MapRecords(b.records, b.group);
      return None;
    }

    // ---- settlement ------------------------------------------------------------------------------

    method Settle(outs: seq<Outcome>)
      requires Valid()
      modifies this
      ensures Valid() && State() == Spec.Settle(old(State()), outs)
    {
      ghost var was := State();
      var advances: seq<Spec.Advance> := [];
      for i := 0 to |outs|
        invariant Valid()
        invariant (State(), advances) == Spec.SettleAll(was, outs[..i])
      {
        assert outs[..i + 1][..i] == outs[..i];
        Inv.SettleOneKeeps(State(), outs[i]);
        var a := SettleOutcome(outs[i]);
        advances := advances + a;
      }
      assert outs[..|outs|] == outs;
      Inv.SettleKeeps(was, outs);
      PublishAll(advances);
    }

    method PublishAll(advances: seq<Spec.Advance>)
      modifies this`lanes
      ensures State() == Spec.PublishAll(old(State()), advances)
    {
      for i := 0 to |advances|
        invariant State() == Spec.PublishAll(old(State()), advances[..i])
      {
        assert advances[..i + 1][..i] == advances[..i];
        var a := advances[i];
        if a.lane in lanes {
          var st := lanes[a.lane].(resolved := Some(a.pos));
          if a.pos.safe {
            st := st.(pendingFlush := Some(a.pos));
          }
          lanes := lanes[a.lane := st];
        }
      }
      assert advances[..|advances|] == advances;
    }

    method SettleOutcome(o: Outcome) returns (a: seq<Spec.Advance>)
      requires Valid()
      modifies this
      ensures (State(), a) == Spec.SettleOne(old(State()), o)
    {
      Inv.SettlesInFlight(State(), o);
      if o.record !in byRec {
        return [];
      }
      var gid := byRec[o.record];
      byRec := byRec - {o.record};
      var before := groups[gid];
      var st := lanes[before.lane];
      var g := NoteOutcome(before, o);
      var after, moved := Discharge(st, before, g, o);
      a := [];
      if moved.Some? && st.ordering != Discrete && !st.FencedEpoch(g.epoch) {
        a := [Spec.Advance(g.lane, moved.value)];
      }
      if g.settled >= g.refs {
        groups := groups - {gid};
        after := CloseGroup(after, g);
        lanes := lanes[g.lane := after];
      } else {
        groups := groups[gid := g];
        lanes := lanes[g.lane := after];
      }
    }

    /** The ticket loses a reference, or all of them when the last outcome abandons it. */
    method Discharge(st: Spec.Lane, before: Spec.Group, g: Spec.Group, o: Outcome)
      returns (after: Spec.Lane, moved: Option<Position>)
      requires Spec.Indexed(st, before) && g == Spec.SettleGroup(before, o)
      ensures after == Spec.Noted(st, before, o) && moved == T.Advance(st.log, after.log)
    {
      var log;
      if o.disposition == Abandoned && g.settled >= g.refs {
        log := T.Discharge(st.log, g.ticket, 0, true);
      } else {
        log := T.Discharge(st.log, g.ticket, 1, false);
      }
      moved := T.Advance(st.log, log);
      after := st.(log := log, history := Spec.Record(st.history, before, o));
    }

    /** A group from a fenced epoch leaves without being accounted. */
    method CloseGroup(before: Spec.Lane, g: Spec.Group) returns (st: Spec.Lane)
      requires before.pending > 0
      ensures st == Spec.CloseGroup(before, g)
    {
      st := before.(pending := before.pending - 1);
      if st.FencedEpoch(g.epoch) {
        st := st.(history := st.history.(
                    withheld := st.history.withheld + g.records,
                    unreported := st.history.unreported + g.abandoned,
                    lostLanded := st.history.lostLanded + g.landed,
                    lostDropped := st.history.lostDropped + g.dropped));
        return;
      }
      st := st.(ackRecords := st.ackRecords + g.records, ackAbandoned := st.ackAbandoned + g.abandoned,
                history := st.history.(owed := st.history.owed + [g.ticket]));
      if st.ordering == Discrete {
        st := st.(settledHandles := st.settledHandles + g.landed,
                  abandonedHandles := st.abandonedHandles + g.dropped);
      }
    }

    method NoteOutcome(before: Spec.Group, o: Outcome) returns (g: Spec.Group)
      ensures g == Spec.SettleGroup(before, o)
    {
      g := before.(settled := before.settled + 1);
      if o.record in g.handles {
        var h := g.handles[o.record];
        if o.disposition == Abandoned {
          g := g.(dropped := g.dropped + [h]);
        } else {
          g := g.(landed := g.landed + [h]);
        }
        g := g.(handles := g.handles - {o.record});
      }
      if o.disposition == Abandoned {
        g := g.(abandoned := g.abandoned + 1);
      }
    }

    // ---- acknowledging ---------------------------------------------------------------------------

    method EmitDiscrete() returns (ghost order: seq<LaneID>)
      requires Valid()
      modifies this
      ensures Valid() && Visits(order, old(lanes.Keys)) && State() == Spec.EmitDiscrete(old(State()), order)
    {
      ghost var was := State();
      var out;
      out, order := EmitLanes();
      Inv.EmitDiscreteKeeps(was, order);
      acks := acks + out;
    }

    /** The acknowledgement of a lane, and the lane once it went out. */
    method Acknowledge(id: LaneID, before: Spec.Lane, through: Option<Position>) returns (st: Spec.Lane, ack: Ack)
      ensures st == Spec.Acked(before) && ack == Spec.MakeAck(id, before, through)
    {
      st := before;
      ack := Ack(id, st.epoch, through, st.settledHandles, st.abandonedHandles, st.ackRecords, st.ackAbandoned,
                 st.laneFinished && st.pending == 0, st.history.owed);
      st := st.(finishAcked := st.laneFinished && st.pending == 0,
                recordsCommitted := st.recordsCommitted + st.ackRecords);
      st := st.(ackRecords := 0, ackAbandoned := 0, settledHandles := [], abandonedHandles := [],
                history := st.history.(owed := []));
    }

    method EmitOne(id: LaneID, before: Spec.Lane) returns (st: Spec.Lane, sent: seq<Ack>)
      ensures (st, sent) == Spec.EmitLane(id, before)
    {
      st, sent := before, [];
      if st.ordering != Discrete || (st.settledHandles == [] && st.abandonedHandles == []) {
        return;
      }
      if st.finishAcked || st.Fenced() {
        st := Spec.DropAck(st);
        return;
      }
      var ack;
      st, ack := Acknowledge(id, st, None);
      sent := [ack];
    }

    method CommitOne(id: LaneID, before: Spec.Lane, pos: Position) returns (st: Spec.Lane, sent: seq<Ack>)
      ensures (st, sent) == Spec.CommitLane(id, before, pos)
    {
      st, sent := before.(committed := Some(pos)), [];
      if st.ordering != Prefix {
        return;
      }
      if st.finishAcked || st.Fenced() {
        st := Spec.DropAck(st);
        return;
      }
      var ack;
      st, ack := Acknowledge(id, st, Some(pos));
      sent := [ack];
    }

    method EmitLanes() returns (out: seq<Ack>, ghost order: seq<LaneID>)
      modifies this`lanes
      ensures Visits(order, old(lanes.Keys))
      ensures State().(acks := acks + out) == Spec.EmitDiscrete(old(State()), order)
    {
      ghost var was := State();
      order, out := [], [];
      var todo := lanes.Keys;
      while todo != {}
        invariant todo <= was.lanes.Keys == lanes.Keys
        invariant Visits(order, was.lanes.Keys - todo)
        invariant State().(acks := acks + out) == Spec.EmitDiscrete(was, order)
      {
        var id :| id in todo;
        EmitNext(was, order, id);
        VisitsNext(order, was.lanes.Keys - todo, id);
        order := order + [id];
        todo := todo - {id};
        assert was.lanes.Keys - todo == was.lanes.Keys - (todo + {id}) + {id};
        var st, sent := EmitOne(id, lanes[id]);
        lanes := lanes[id := st];
        assert acks + (out + sent) == (acks + out) + sent;
        out := out + sent;
      }
    }

    method Committed(m: map<LaneID, Position>) returns (ghost order: seq<LaneID>)
      requires Valid()
      modifies this
      ensures Valid() && Visits(order, m.Keys) && State() == Spec.Committed(old(State()), m, order)
    {
      ghost var was := State();
      var out;
      out, order := CommitLanes(m);
      Inv.CommittedKeeps(was, m, order);
      acks := acks + out;
    }

    method CommitLanes(m: map<LaneID, Position>) returns (out: seq<Ack>, ghost order: seq<LaneID>)
      modifies this`lanes
      ensures Visits(order, m.Keys)
      ensures State().(acks := acks + out) == Spec.Committed(old(State()), m, order)
    {
      ghost var was := State();
      order, out := [], [];
      var todo := m.Keys;
      while todo != {}
        invariant todo <= m.Keys && Visits(order, m.Keys - todo)
        invariant State().(acks := acks + out) == Spec.Committed(was, m, order)
      {
        var id :| id in todo;
        CommittedNext(was, m, order, id);
        VisitsNext(order, m.Keys - todo, id);
        order := order + [id];
        todo := todo - {id};
        assert m.Keys - todo == m.Keys - (todo + {id}) + {id};
        if id in lanes {
          var st, sent := CommitOne(id, lanes[id], m[id]);
          lanes := lanes[id := st];
          assert acks + (out + sent) == (acks + out) + sent;
          out := out + sent;
        }
      }
    }

    method Flushable() returns (out: map<LaneID, Position>)
      requires Valid()
      modifies this
      ensures Valid() && (State(), out) == Spec.Flushable(old(State()))
    {
      Inv.FlushableKeeps(State());
      FlushedAll(State());
      out := TakeFlushable();
    }

    method TakeFlushable() returns (out: map<LaneID, Position>)
      modifies this`lanes
      ensures lanes == Flushed(old(lanes), {}) && out == Offered(old(lanes), {})
    {
      ghost var was := lanes;
      out := map[];
      var todo := lanes.Keys;
      while todo != {}
        invariant todo <= was.Keys && lanes == Flushed(was, todo) && out == Offered(was, todo)
      {
        var id :| id in todo;
        FlushedNext(was, todo, id);
        todo := todo - {id};
        var st := lanes[id];
        if st.pendingFlush.Some? && !st.Fenced() {
          if !Spec.Stale(st) {
            out := out[id := st.pendingFlush.value];
          }
          lanes := lanes[id := st.(pendingFlush := None)];
        }
      }
    }
  }
}
