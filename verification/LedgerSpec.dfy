/**
 The settlement ledger as a state machine: one function per public method, each atomic. A lane's
 tracker appears as its log of admissions, which Tracker.dfy shows the linked list to implement;
 a ticket is an index into that log.
 */
module LedgerSpec {
  import opened Wrappers
  import opened Records
  import T = TrackerSpec

  // ---- state ---------------------------------------------------------------------------------

  /** One settlement unit: the records admitted together. */
  datatype Group = Group(
    lane: LaneID, epoch: nat, ticket: nat, refs: nat, records: nat,
    handles: map<RecordID, Handle>, landed: seq<Handle>, dropped: seq<Handle>,
    abandoned: nat, settled: nat)

  /** How an entry came into a lane's log. */
  datatype Kind = Carried | Empty | Shed | Refused

  /** History of one admission; nothing branches on it. `left` are its records with no outcome yet. */
  datatype Admission = Admission(kind: Kind, records: set<RecordID>, left: set<RecordID>, epoch: nat)

  /**
   History of one lane; nothing branches on it. `withheld` counts records that settled and are
   never acknowledged, `owed` has the tickets the next acknowledgement counts, `given` the handles
   each group was opened with, `landed` and `dropped` the handles by the outcome of their record,
   and `lost` the handles that settled and are never acknowledged. `gaveUp` counts the records whose
   outcome was to be abandoned, and `unreported` those of them that no acknowledgement reports.
   */
  datatype History = History(
    admissions: seq<Admission>, withheld: nat, owed: seq<nat>,
    given: seq<map<RecordID, Handle>>, landed: seq<Handle>, dropped: seq<Handle>,
    lostLanded: seq<Handle>, lostDropped: seq<Handle>, gaveUp: nat, unreported: nat)

  datatype Lane = Lane(
    ordering: Ordering, budget: nat, whenFull: WhenFull, log: T.Log<Position>, seqno: nat,
    resolved: Option<Position>, committed: Option<Position>, pendingFlush: Option<Position>,
    settledHandles: seq<Handle>, abandonedHandles: seq<Handle>,
    ackRecords: nat, ackAbandoned: nat, laneFinished: bool, pending: nat, finishAcked: bool,
    retireRequested: bool, retireReported: bool, fencedThrough: nat, epoch: nat,
    recordsRead: nat, recordsCommitted: nat, shed: nat,
    history: History)
  {
    /** The epoch the lane is held under is one a revocation covered. */
    predicate Fenced() { FencedEpoch(epoch) }

    predicate FencedEpoch(e: nat) { fencedThrough > 0 && e <= fencedThrough }
  }

  datatype State = State(lanes: map<LaneID, Lane>, groups: map<GroupID, Group>,
                         byRec: map<RecordID, GroupID>, acks: seq<Ack>)

  const NO_HISTORY := History([], 0, [], [], [], [], [], [], 0, 0)

  function NewLane(ordering: Ordering, budget: nat, whenFull: WhenFull): Lane {
    Lane(ordering, budget, whenFull, [], 0, None, None, None, [], [], 0, 0, false, 0, false,
         false, false, 0, 0, 0, 0, 0, NO_HISTORY)
  }

  function Initial(): State { State(map[], map[], map[], []) }

  function SetLane(s: State, id: LaneID, st: Lane): State { s.(lanes := s.lanes[id := st]) }

  // ---- registration, epochs, finishing --------------------------------------------------------

  datatype Error = Unregistered | OrderingChanged | FencedOff | Mislabelled | Cancelled | WasShed | DuplicateGroup

  /** Idempotent on the id; a lane never changes its ordering. A budget below one is the default. */
  function RegisterLane(s: State, id: LaneID, ordering: Ordering, budget: nat, whenFull: WhenFull, dflt: nat)
    : (State, Option<Error>)
  {
    if id in s.lanes then
      (s, if s.lanes[id].ordering != ordering then Some(OrderingChanged) else None)
    else
      (SetLane(s, id, NewLane(ordering, if budget < 1 then dflt else budget, whenFull)), None)
  }

  function SetEpoch(s: State, id: LaneID, epoch: nat): State {
    if id in s.lanes then SetLane(s, id, s.lanes[id].(epoch := epoch)) else s
  }

  function FinishLane(s: State, id: LaneID): State {
    if id in s.lanes then SetLane(s, id, s.lanes[id].(laneFinished := true)) else s
  }

  /** True means the caller must write the retirement now. */
  function RequestRetire(s: State, id: LaneID): (State, bool) {
    if id !in s.lanes then (s, true)
    else
      var st := s.lanes[id].(laneFinished := true, retireRequested := true);
      if st.pending == 0 then (SetLane(s, id, st.(retireReported := true)), true)
      else (SetLane(s, id, st), false)
  }

  predicate CanRetire(st: Lane) { st.retireRequested && st.pending == 0 && !st.retireReported }

  function ReportRetired(st: Lane): Lane {
    if CanRetire(st) then st.(retireReported := true) else st
  }

  /** Each drained lane is handed out once. */
  function Retirable(s: State): (State, set<LaneID>) {
    (s.(lanes := map id | id in s.lanes :: ReportRetired(s.lanes[id])),
     set id | id in s.lanes && CanRetire(s.lanes[id]))
  }

  function Max(a: nat, b: nat): nat { if a < b then b else a }

  /** Clears what the next acknowledgement would have carried; its records are withheld. */
  function DropAck(st: Lane): Lane {
    st.(ackRecords := 0, ackAbandoned := 0, settledHandles := [], abandonedHandles := [],
        history := st.history.(
          withheld := st.history.withheld + st.ackRecords, owed := [],
          unreported := st.history.unreported + st.ackAbandoned,
          lostLanded := st.history.lostLanded + st.settledHandles,
          lostDropped := st.history.lostDropped + st.abandonedHandles))
  }

  /** Fences the epoch the lane is held under and discards its resolved prefix. */
  function RevokeLane(st: Lane): Lane {
    DropAck(st).(fencedThrough := Max(st.fencedThrough, Max(st.epoch, 1)), resolved := None, pendingFlush := None)
  }

  function Revoke(s: State, id: LaneID): State {
    if id in s.lanes then SetLane(s, id, RevokeLane(s.lanes[id])) else s
  }

  // ---- admission -------------------------------------------------------------------------------

  predicate Sheds(w: WhenFull) { w == DropNewest || w == Reject }

  /** Publishes an advance of the prefix; only a safe position may be flushed. */
  function Publish(st: Lane, a: Option<Position>): Lane {
    if a.None? then st
    else st.(resolved := a, pendingFlush := if a.value.safe then a else st.pendingFlush)
  }

  function Ids(rs: seq<Rec>): (s: set<RecordID>) { set r | r in rs :: r.id }

  /** The handles a discrete lane keeps for a batch, by record; the last one given wins. */
  function Handles(rs: seq<Rec>): (m: map<RecordID, Handle>)
    ensures forall k :: k in m ==> k in Ids(rs)
  {
    if rs == [] then map[]
    else
      var m := Handles(rs[..|rs| - 1]);
      var r := rs[|rs| - 1];
      assert forall x :: x in rs[..|rs| - 1] ==> x in rs;
      if r.handle.Some? then m[r.id := r.handle.value] else m
  }

  function MapRecords(m: map<RecordID, GroupID>, ids: set<RecordID>, g: GroupID): map<RecordID, GroupID> {
    m + map id | id in ids :: g
  }

  function Append(st: Lane, log: T.Log<Position>, a: Admission): Lane {
    st.(log := log, history := st.history.(admissions := st.history.admissions + [a]))
  }

  /** A position with no records: it takes its place in the log and may move the prefix at once. */
  function AdmitIdle(st: Lane, pos: Position, a: Admission): Lane {
    var log := T.TrackResolved(st.log, pos);
    Publish(Append(st, log, a), T.Advance(st.log, log))
  }

  function ShedBatch(st: Lane, b: Batch, pos: Position): Lane {
    var n := |b.records|;
    var t := AdmitIdle(st, pos, Admission(Shed, Ids(b.records), Ids(b.records), st.epoch));
    t.(recordsRead := t.recordsRead + n, shed := t.shed + n, ackAbandoned := t.ackAbandoned + n)
  }

  function NewGroup(st: Lane, b: Batch): Group {
    Group(b.lane, st.epoch, |st.log|, |b.records|, |b.records|,
          if st.ordering == Discrete then Handles(b.records) else map[], [], [], 0, 0)
  }

  function Track(st: Lane, b: Batch, pos: Position): T.Log<Position> {
    T.Track(st.log, pos, |b.records|, |b.records|)
  }

  /** Opens a group, or abandons the ticket just taken when the group id is already in flight. */
  function OpenGroup(s: State, st: Lane, b: Batch, pos: Position): (State, Option<Error>)
    requires b.lane in s.lanes
  {
    var ids := Ids(b.records);
    var log := Track(st, b, pos);
    if b.group in s.groups then
      var t := Append(st, T.Discharge(log, |st.log|, 0, true), Admission(Refused, ids, ids, st.epoch));
      (SetLane(s, b.lane, t), Some(DuplicateGroup))
    else
      var g := NewGroup(st, b);
      var t := Append(st, log, Admission(Carried, ids, ids, st.epoch));
      var t := t.(pending := t.pending + 1, recordsRead := t.recordsRead + |b.records|,
                  history := t.history.(given := t.history.given + [g.handles]));
      (s.(lanes := s.lanes[b.lane := t], groups := s.groups[b.group := g],
          byRec := MapRecords(s.byRec, ids, b.group)), None)
  }

  /**
   Admission. A batch that does not fit a lane that blocks waits; here it either is admitted in
   one step or gives up, having used its sequence number.
   */
  function Admit(s: State, b: Batch): (State, Option<Error>) {
    if b.lane !in s.lanes then (s, Some(Unregistered))
    else if s.lanes[b.lane].Fenced() then (s, Some(FencedOff))
    else if exists r :: r in b.records && r.lane != b.lane then (s, Some(Mislabelled))
    else AdmitHeld(s, b)
  }

  /** The sequence number a batch gets is the ledger's to assign. */
  function Stamp(s: State, b: Batch): Position
    requires b.lane in s.lanes
  {
    b.pos.(seqno := s.lanes[b.lane].seqno + 1)
  }

  function AdmitHeld(s: State, b: Batch): (State, Option<Error>)
    requires b.lane in s.lanes
  {
    var pos := Stamp(s, b);
    var st := s.lanes[b.lane].(seqno := pos.seqno);
    if b.records == [] then
      (SetLane(s, b.lane, AdmitIdle(st, pos, Admission(Empty, {}, {}, st.epoch))), None)
    else if T.Admits(st.log, st.budget, |b.records|) then
      OpenGroup(s, st, b, pos)
    else if Sheds(st.whenFull) then
      (SetLane(s, b.lane, ShedBatch(st, b, pos)), Some(WasShed))
    else
      (SetLane(s, b.lane, st), Some(Cancelled))
  }

  // ---- settlement --------------------------------------------------------------------------------

  /** A group after one of its records reached an outcome. */
  function SettleGroup(g: Group, o: Outcome): Group {
    var g := g.(settled := g.settled + 1,
                abandoned := g.abandoned + if o.disposition == Abandoned then 1 else 0);
    if o.record !in g.handles then g
    else
      var h := g.handles[o.record];
      if o.disposition == Abandoned then g.(dropped := g.dropped + [h], handles := g.handles - {o.record})
      else g.(landed := g.landed + [h], handles := g.handles - {o.record})
  }

  predicate Complete(g: Group) { g.settled >= g.refs }

  function DischargeTicket(st: Lane, g: Group, o: Outcome): T.Log<Position>
    requires g.ticket < |st.log|
  {
    T.Discharge(st.log, g.ticket, 1, o.disposition == Abandoned && Complete(g))
  }

  /** What the history learns from one outcome for group g. */
  function Record(h: History, g: Group, o: Outcome): History
    requires g.ticket < |h.admissions|
  {
    var a := h.admissions[g.ticket];
    var h := h.(admissions := h.admissions[g.ticket := a.(left := a.left - {o.record})],
                gaveUp := if o.disposition == Abandoned then h.gaveUp + 1 else h.gaveUp);
    if o.record !in g.handles then h
    else if o.disposition == Abandoned then h.(dropped := h.dropped + [g.handles[o.record]])
    else h.(landed := h.landed + [g.handles[o.record]])
  }

  /** A complete group leaves; one from a fenced epoch leaves without being accounted. */
  function CloseGroup(st: Lane, g: Group): Lane
    requires st.pending > 0
  {
    var st := st.(pending := st.pending - 1);
    if st.FencedEpoch(g.epoch) then
      st.(history := st.history.(
            withheld := st.history.withheld + g.records,
            unreported := st.history.unreported + g.abandoned,
            lostLanded := st.history.lostLanded + g.landed,
            lostDropped := st.history.lostDropped + g.dropped))
    else
      var st := st.(ackRecords := st.ackRecords + g.records, ackAbandoned := st.ackAbandoned + g.abandoned,
                    history := st.history.(owed := st.history.owed + [g.ticket]));
      if st.ordering == Discrete then
        st.(settledHandles := st.settledHandles + g.landed, abandonedHandles := st.abandonedHandles + g.dropped)
      else st
  }

  /** An advance of a lane's prefix that has yet to be published. */
  datatype Advance = Advance(lane: LaneID, pos: Position)

  /**
   The outcome is for a record in flight. The last line is about indices and always holds in a
   reachable state.
   */
  predicate Settles(s: State, o: Outcome) {
    && o.record in s.byRec
    && s.byRec[o.record] in s.groups
    && var g := s.groups[s.byRec[o.record]];
       g.lane in s.lanes && Indexed(s.lanes[g.lane], g)
  }

  predicate Indexed(st: Lane, g: Group) {
    g.ticket < |st.log| && g.ticket < |st.history.admissions| && st.pending > 0
  }

  /** The lane after an outcome for group g, before the group is closed. */
  function Noted(st: Lane, g: Group, o: Outcome): Lane
    requires g.ticket < |st.log| && g.ticket < |st.history.admissions|
  {
    st.(log := DischargeTicket(st, SettleGroup(g, o), o), history := Record(st.history, g, o))
  }

  function LaneAfter(st: Lane, g: Group, o: Outcome): Lane
    requires Indexed(st, g)
  {
    var g' := SettleGroup(g, o);
    if Complete(g') then CloseGroup(Noted(st, g, o), g') else Noted(st, g, o)
  }

  function GroupsAfter(groups: map<GroupID, Group>, gid: GroupID, o: Outcome): map<GroupID, Group>
    requires gid in groups
  {
    var g' := SettleGroup(groups[gid], o);
    if Complete(g') then groups - {gid} else groups[gid := g']
  }

  /** Only a prefix lane publishes, and never from a fenced epoch. */
  function AdvancesOf(st: Lane, g: Group, o: Outcome): seq<Advance>
    requires g.ticket < |st.log| && g.ticket < |st.history.admissions|
  {
    var a := T.Advance(st.log, Noted(st, g, o).log);
    if a.Some? && st.ordering != Discrete && !st.FencedEpoch(g.epoch) then [Advance(g.lane, a.value)] else []
  }

  /** One outcome. A record that is not, or no longer, in flight changes nothing. */
  function SettleOne(s: State, o: Outcome): (State, seq<Advance>) {
    if !Settles(s, o) then (s, [])
    else
      var gid := s.byRec[o.record];
      var g := s.groups[gid];
      var st := s.lanes[g.lane];
      (State(s.lanes[g.lane := LaneAfter(st, g, o)], GroupsAfter(s.groups, gid, o), s.byRec - {o.record}, s.acks),
       AdvancesOf(st, g, o))
  }

  /** All outcomes of one call, then the advances they caused, in order. */
  function SettleAll(s: State, outs: seq<Outcome>): (State, seq<Advance>) {
    if outs == [] then (s, [])
    else
      var (s1, a1) := SettleAll(s, outs[..|outs| - 1]);
      var (s2, a2) := SettleOne(s1, outs[|outs| - 1]);
      (s2, a1 + a2)
  }

  function Settle(s: State, outs: seq<Outcome>): State {
    var (s1, advances) := SettleAll(s, outs);
    PublishAll(s1, advances)
  }

  function PublishAll(s: State, advances: seq<Advance>): State {
    if advances == [] then s
    else
      var s1 := PublishAll(s, advances[..|advances| - 1]);
      var a := advances[|advances| - 1];
      if a.lane in s1.lanes then SetLane(s1, a.lane, Publish(s1.lanes[a.lane], Some(a.pos))) else s1
  }

  // ---- acknowledgements ------------------------------------------------------------------------

  predicate FinalAck(st: Lane) { st.laneFinished && st.pending == 0 }

  function MakeAck(id: LaneID, st: Lane, through: Option<Position>): Ack {
    Ack(id, st.epoch, through, st.settledHandles, st.abandonedHandles, st.ackRecords, st.ackAbandoned, FinalAck(st),
        st.history.owed)
  }

  /** The lane once its acknowledgement went out. */
  function Acked(st: Lane): Lane {
    st.(finishAcked := FinalAck(st), recordsCommitted := st.recordsCommitted + st.ackRecords,
        ackRecords := 0, ackAbandoned := 0, settledHandles := [], abandonedHandles := [],
        history := st.history.(owed := []))
  }

  /** Told already, or fenced: nothing is sent, and what would have been sent is dropped. */
  predicate Silent(st: Lane) { st.finishAcked || st.Fenced() }

  predicate HasHandles(st: Lane) { st.settledHandles != [] || st.abandonedHandles != [] }

  /** A discrete lane is acknowledged as soon as handles have settled. */
  function EmitLane(id: LaneID, st: Lane): (Lane, seq<Ack>) {
    if st.ordering != Discrete || !HasHandles(st) then (st, [])
    else if Silent(st) then (DropAck(st), [])
    else (Acked(st), [MakeAck(id, st, None)])
  }

  /** A prefix lane is acknowledged once its position is durable. */
  function CommitLane(id: LaneID, st: Lane, pos: Position): (Lane, seq<Ack>) {
    var st := st.(committed := Some(pos));
    if st.ordering != Prefix then (st, [])
    else if Silent(st) then (DropAck(st), [])
    else (Acked(st), [MakeAck(id, st, Some(pos))])
  }

  /** The loops over the lane table visit lanes in any order; `order` is the one they took. */
  function EmitDiscrete(s: State, order: seq<LaneID>): State {
    if order == [] then s
    else
      var s1 := EmitDiscrete(s, order[..|order| - 1]);
      var id := order[|order| - 1];
      if id !in s1.lanes then s1
      else
        var (st, out) := EmitLane(id, s1.lanes[id]);
        SetLane(s1, id, st).(acks := s1.acks + out)
  }

  function Committed(s: State, m: map<LaneID, Position>, order: seq<LaneID>): State {
    if order == [] then s
    else
      var s1 := Committed(s, m, order[..|order| - 1]);
      var id := order[|order| - 1];
      if id !in s1.lanes || id !in m then s1
      else
        var (st, out) := CommitLane(id, s1.lanes[id], m[id]);
        SetLane(s1, id, st).(acks := s1.acks + out)
  }

  // ---- flushing ----------------------------------------------------------------------------------

  /** A cursor never moves backwards, by the connector's own order or by the ledger's. */
  predicate Stale(st: Lane) {
    && st.pendingFlush.Some?
    && st.committed.Some?
    && ((Compare(st.pendingFlush.value, st.committed.value).Some?
           && Compare(st.pendingFlush.value, st.committed.value).value <= 0)
        || st.pendingFlush.value.seqno <= st.committed.value.seqno)
  }

  predicate Offers(st: Lane) { st.pendingFlush.Some? && !st.Fenced() && !Stale(st) }

  /** An offer is taken once; a stale one is dropped; a fenced lane keeps its own. */
  function FlushLane(st: Lane): Lane {
    if st.pendingFlush.Some? && !st.Fenced() then st.(pendingFlush := None) else st
  }

  function Flushable(s: State): (State, map<LaneID, Position>) {
    (s.(lanes := map id | id in s.lanes :: FlushLane(s.lanes[id])),
     map id | id in s.lanes && Offers(s.lanes[id]) :: s.lanes[id].pendingFlush.value)
  }
}
