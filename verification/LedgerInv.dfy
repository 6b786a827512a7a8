/** What every step of the ledger keeps. */
module LedgerInv {
  import opened Wrappers
  import opened Records
  import opened LedgerSpec
  import opened Counting
  import T = TrackerSpec

  // ---- one lane ----------------------------------------------------------------------------------

  /** p is the position of an admission the prefix has passed. */
  predicate InPrefix(st: Lane, p: Position) {
    exists i :: 0 <= i < T.Run(st.log) && st.log[i].payload == p
  }

  predicate Before(log: T.Log<Position>, i: nat, j: nat)
    requires i < |log| && j < |log|
  {
    log[i].payload.seqno < log[j].payload.seqno
  }

  predicate Ascending(log: T.Log<Position>) {
    forall i: nat, j: nat {:trigger Before(log, i, j)} :: i < j < |log| ==> Before(log, i, j)
  }

  /** An admission whose entry is resolved has no record left, unless it never took any in. */
  predicate EntryOK(e: T.Entry<Position>, a: Admission) {
    && e.WellFormed()
    && (e.Resolved() && a.kind.Carried? ==> a.left == {})
    && (a.kind.Carried? ==> e.weight > 0)
    && (a.kind.Empty? ==> a.records == {})
  }

  predicate EntryAt(log: T.Log<Position>, admissions: seq<Admission>, seqno: nat, i: nat)
    requires i < |log| == |admissions|
  {
    log[i].payload.seqno <= seqno && EntryOK(log[i], admissions[i])
  }

  predicate Entries(log: T.Log<Position>, admissions: seq<Admission>, seqno: nat)
    requires |log| == |admissions|
  {
    forall i: nat {:trigger EntryAt(log, admissions, seqno, i)} :: i < |log| ==> EntryAt(log, admissions, seqno, i)
  }

  predicate LaneOK(st: Lane) {
    && |st.log| == |st.history.admissions|
    && Ascending(st.log)
    && Entries(st.log, st.history.admissions, st.seqno)
    && (st.pendingFlush.Some? ==> st.pendingFlush.value.safe && InPrefix(st, st.pendingFlush.value))
    && (st.ordering == Prefix ==> st.settledHandles == [] && st.abandonedHandles == [])
  }

  // ---- groups ------------------------------------------------------------------------------------

  /** An open group stands for an unresolved entry and counts its outcomes exactly. */
  predicate GroupOK(st: Lane, g: Group) {
    && g.ticket < |st.log| == |st.history.admissions|
    && g.settled < g.refs == g.records
    && st.log[g.ticket].refs == g.refs - g.settled
    && st.log[g.ticket].weight == g.records
    && st.history.admissions[g.ticket].kind == Carried
    && st.history.admissions[g.ticket].epoch == g.epoch
    && |st.history.admissions[g.ticket].left| + g.settled <= g.refs
    && g.handles.Keys <= st.history.admissions[g.ticket].left
    && (st.ordering == Prefix ==> g.landed == [] && g.dropped == [] && g.handles == map[])
  }

  predicate GroupsOK(s: State) {
    && (forall g :: g in s.groups ==> s.groups[g].lane in s.lanes && GroupOK(s.lanes[s.groups[g].lane], s.groups[g]))
    && AllApart(s.groups)
  }

  /** Two open groups of one lane never share a ticket. */
  predicate Apart(groups: map<GroupID, Group>, g: GroupID, h: GroupID)
    requires g in groups && h in groups
  {
    groups[g].lane == groups[h].lane ==> groups[g].ticket != groups[h].ticket
  }

  predicate AllApart(groups: map<GroupID, Group>) {
    forall g, h {:trigger Apart(groups, g, h)} :: g in groups && h in groups && g != h ==> Apart(groups, g, h)
  }

  /** A record in flight belongs to an open group that still waits for it. */
  predicate RecordsOK(s: State)
    requires GroupsOK(s)
  {
    forall r :: r in s.byRec ==>
      && s.byRec[r] in s.groups
      && var g := s.groups[s.byRec[r]];
         r in s.lanes[g.lane].history.admissions[g.ticket].left
  }

  // ---- sums over the open groups -------------------------------------------------------------------

  /** What to count of a group: itself, its records, those abandoned, or one handle by what became of its record. */
  datatype Measure = Groups | Records | GivenUp | Waiting(h: Handle) | Landed(h: Handle) | Dropped(h: Handle)

  function Holders(m: map<RecordID, Handle>, h: Handle): set<RecordID> {
    set r | r in m && m[r] == h
  }

  function Given(m: map<RecordID, Handle>, h: Handle): nat { |Holders(m, h)| }

  function Share(g: Group, id: LaneID, m: Measure): nat {
    if g.lane != id then 0
    else match m
      case Groups => 1
      case Records => g.records
      case GivenUp => g.abandoned
      case Waiting(h) => Given(g.handles, h)
      case Landed(h) => Count(g.landed, h)
      case Dropped(h) => Count(g.dropped, h)
  }

  /** The measure summed over a lane's open groups. */
  ghost function Total(groups: map<GroupID, Group>, id: LaneID, m: Measure): nat {
    if groups == map[] then 0
    else
      var k :| k in groups;
      Share(groups[k], id, m) + Total(groups - {k}, id, m)
  }

  lemma UpdateThenRemove<K, V>(m: map<K, V>, k: K, v: V)
    ensures m[k := v] - {k} == m - {k}
  {}

  lemma RemoveTwo<K, V>(m: map<K, V>, k: K, l: K)
    ensures m - {k} - {l} == m - {l} - {k}
  {}

  lemma {:induction false} TotalRemove(groups: map<GroupID, Group>, k: GroupID, id: LaneID, m: Measure)
    requires k in groups
    ensures Total(groups, id, m) == Share(groups[k], id, m) + Total(groups - {k}, id, m)
    decreases |groups|
  {
    var l :| l in groups && Total(groups, id, m) == Share(groups[l], id, m) + Total(groups - {l}, id, m);
    if l != k {
      TotalRemove(groups - {l}, k, id, m);
      TotalRemove(groups - {k}, l, id, m);
      RemoveTwo(groups, k, l);
    }
  }

  lemma TotalUpdate(groups: map<GroupID, Group>, k: GroupID, g: Group, id: LaneID, m: Measure)
    ensures Total(groups[k := g], id, m) == Share(g, id, m) + Total(groups - {k}, id, m)
  {
    UpdateThenRemove(groups, k, g);
    TotalRemove(groups[k := g], k, id, m);
  }

  lemma TotalAdd(groups: map<GroupID, Group>, k: GroupID, g: Group, id: LaneID, m: Measure)
    requires k !in groups
    ensures Total(groups[k := g], id, m) == Share(g, id, m) + Total(groups, id, m)
  {
    TotalUpdate(groups, k, g, id, m);
    assert groups - {k} == groups;
  }

  // ---- what has been acknowledged ------------------------------------------------------------------

  function AckedRecords(acks: seq<Ack>, id: LaneID): nat {
    if acks == [] then 0
    else AckedRecords(acks[..|acks| - 1], id) + if acks[|acks| - 1].lane == id then acks[|acks| - 1].records else 0
  }

  /**
   A lane's books: what its counters say is open, acknowledged, and otherwise accounted for.
   Moving records between what waits for an acknowledgement and what is withheld leaves them alone.
   */
  datatype Books = Books(pending: nat, committed: nat, open: int)

  function BooksOf(st: Lane): Books {
    Books(st.pending, st.recordsCommitted,
          st.recordsRead - st.shed - st.ackRecords - st.recordsCommitted - st.history.withheld)
  }

  /** Every record a lane has read is accounted for. */
  predicate Balanced(b: Books, groups: nat, records: nat, acked: nat) {
    && b.pending == groups
    && b.open == records
    && b.committed == acked
  }

  ghost predicate LaneBalanced(s: State, id: LaneID)
    requires id in s.lanes
  {
    Balanced(BooksOf(s.lanes[id]), Total(s.groups, id, Groups), Total(s.groups, id, Records), AckedRecords(s.acks, id))
  }

  // ---- final acknowledgements ----------------------------------------------------------------------

  /** Nothing follows an acknowledgement that said the lane is finished. */
  predicate FinalLast(acks: seq<Ack>) {
    forall i: nat, j: nat {:trigger NotFinalBefore(acks, i, j)} :: i < j < |acks| ==> NotFinalBefore(acks, i, j)
  }

  predicate NotFinalBefore(acks: seq<Ack>, i: nat, j: nat)
    requires i < |acks| && j < |acks|
  {
    acks[i].lane == acks[j].lane ==> !acks[i].laneFinished
  }

  predicate AcksOK(s: State) {
    && FinalLast(s.acks)
    && (forall i :: 0 <= i < |s.acks| ==> s.acks[i].lane in s.lanes)
    && (forall i :: 0 <= i < |s.acks| && s.acks[i].laneFinished ==> s.lanes[s.acks[i].lane].finishAcked)
  }

  ghost predicate Inv(s: State) {
    && (forall id :: id in s.lanes ==> LaneOK(s.lanes[id]))
    && GroupsOK(s)
    && RecordsOK(s)
    && (forall id :: id in s.lanes ==> LaneBalanced(s, id))
    && AcksOK(s)
  }

  // ---- changes that leave the groups alone ---------------------------------------------------------

  /** t has every admission of st, unchanged. */
  predicate Extends(st: Lane, t: Lane) {
    && t.ordering == st.ordering
    && |st.log| == |st.history.admissions| <= |t.log| == |t.history.admissions|
    && (forall i :: 0 <= i < |st.log| ==>
          t.log[i] == st.log[i] && t.history.admissions[i] == st.history.admissions[i])
  }

  predicate Follows(st: Lane, t: Lane) {
    && Extends(st, t)
    && LaneOK(t)
    && BooksOf(t) == BooksOf(st)
    && (st.finishAcked ==> t.finishAcked)
  }

  lemma ExtendGroup(st: Lane, t: Lane, g: Group)
    requires GroupOK(st, g) && Extends(st, t)
    ensures GroupOK(t, g)
  {}

  lemma ExtendGroups(s: State, lanes: map<LaneID, Lane>)
    requires GroupsOK(s) && RecordsOK(s)
    requires lanes.Keys == s.lanes.Keys && forall id :: id in lanes ==> Extends(s.lanes[id], lanes[id])
    ensures GroupsOK(s.(lanes := lanes)) && RecordsOK(s.(lanes := lanes))
  {
    var s' := s.(lanes := lanes);
    forall g | g in s'.groups
      ensures s'.groups[g].lane in lanes && GroupOK(lanes[s'.groups[g].lane], s'.groups[g])
    {
      ExtendGroup(s.lanes[s.groups[g].lane], lanes[s.groups[g].lane], s.groups[g]);
    }
  }

  /** Any change of the lanes that only extends their logs and keeps their books keeps the invariant. */
  lemma LanesKeep(s: State, lanes: map<LaneID, Lane>)
    requires Inv(s) && lanes.Keys == s.lanes.Keys
    requires forall id :: id in lanes ==> Follows(s.lanes[id], lanes[id])
    ensures Inv(s.(lanes := lanes))
  {
    ExtendGroups(s, lanes);
    forall id | id in lanes
      ensures LaneBalanced(s.(lanes := lanes), id)
    {
      assert LaneBalanced(s, id);
    }
  }

  lemma FollowsItself(st: Lane)
    requires LaneOK(st)
    ensures Follows(st, st)
  {}

  lemma LaneKeeps(s: State, id: LaneID, t: Lane)
    requires Inv(s) && id in s.lanes && Follows(s.lanes[id], t)
    ensures Inv(SetLane(s, id, t))
  {
    var lanes := s.lanes[id := t];
    forall i | i in lanes
      ensures Follows(s.lanes[i], lanes[i])
    {
      if i != id {
        FollowsItself(s.lanes[i]);
      }
    }
    LanesKeep(s, lanes);
  }

  /** The same admissions keep every prefix. */
  lemma SameLogOK(st: Lane, t: Lane)
    requires LaneOK(st)
    requires t.log == st.log && t.history.admissions == st.history.admissions && t.seqno == st.seqno
    requires t.ordering == st.ordering
    requires t.pendingFlush == st.pendingFlush || t.pendingFlush == None
    requires t.ordering == Prefix ==> t.settledHandles == [] && t.abandonedHandles == []
    ensures LaneOK(t) && Extends(st, t)
  {}

  // ---- steps that touch one lane or all lanes alike --------------------------------------------------

  /** A lane nobody has used joins the table. */
  lemma AddLane(s: State, id: LaneID, st: Lane)
    requires Inv(s) && id !in s.lanes && LaneOK(st) && BooksOf(st) == Books(0, 0, 0)
    ensures Inv(SetLane(s, id, st))
  {
    AddLaneGroups(s, id, st);
    AddLaneBooks(s, id, st);
  }

  lemma AddLaneGroups(s: State, id: LaneID, st: Lane)
    requires GroupsOK(s) && RecordsOK(s) && id !in s.lanes
    ensures GroupsOK(SetLane(s, id, st)) && RecordsOK(SetLane(s, id, st))
  {}

  lemma AddLaneBooks(s: State, id: LaneID, st: Lane)
    requires Inv(s) && id !in s.lanes && BooksOf(st) == Books(0, 0, 0)
    ensures forall i :: i in SetLane(s, id, st).lanes ==> LaneBalanced(SetLane(s, id, st), i)
  {
    NoGroups(s.groups, id, Groups);
    NoGroups(s.groups, id, Records);
    NoAcks(s.acks, id);
    var s' := SetLane(s, id, st);
    forall i | i in s'.lanes
      ensures LaneBalanced(s', i)
    {
      assert i != id ==> LaneBalanced(s, i);
    }
  }

  lemma RegisterKeeps(s: State, id: LaneID, ordering: Ordering, budget: nat, whenFull: WhenFull, dflt: nat)
    requires Inv(s)
    ensures Inv(RegisterLane(s, id, ordering, budget, whenFull, dflt).0)
  {
    if id !in s.lanes {
      var b := if budget < 1 then dflt else budget;
      NewLaneOK(ordering, b, whenFull);
      AddLane(s, id, NewLane(ordering, b, whenFull));
    }
  }

  lemma NewLaneOK(ordering: Ordering, budget: nat, whenFull: WhenFull)
    ensures var st := NewLane(ordering, budget, whenFull); LaneOK(st) && BooksOf(st) == Books(0, 0, 0)
  {}

  lemma {:induction false} NoGroups(groups: map<GroupID, Group>, id: LaneID, m: Measure)
    requires forall g :: g in groups ==> groups[g].lane != id
    ensures Total(groups, id, m) == 0
    decreases |groups|
  {
    if groups == map[] {
    } else {
      var k :| k in groups;
      NoGroups(groups - {k}, id, m);
      TotalRemove(groups, k, id, m);
    }
  }

  lemma {:induction false} NoAcks(acks: seq<Ack>, id: LaneID)
    requires forall i :: 0 <= i < |acks| ==> acks[i].lane != id
    ensures AckedRecords(acks, id) == 0
  {
    if acks == [] {
    } else {
      NoAcks(acks[..|acks| - 1], id);
    }
  }

  lemma SetEpochKeeps(s: State, id: LaneID, epoch: nat)
    requires Inv(s)
    ensures Inv(SetEpoch(s, id, epoch))
  {
    if id in s.lanes {
      SameLogOK(s.lanes[id], s.lanes[id].(epoch := epoch));
      LaneKeeps(s, id, s.lanes[id].(epoch := epoch));
    }
  }

  lemma FinishKeeps(s: State, id: LaneID)
    requires Inv(s)
    ensures Inv(FinishLane(s, id))
  {
    if id in s.lanes {
      var t := s.lanes[id].(laneFinished := true);
      SameLogOK(s.lanes[id], t);
      LaneKeeps(s, id, t);
    }
  }

  lemma RequestRetireKeeps(s: State, id: LaneID)
    requires Inv(s)
    ensures Inv(RequestRetire(s, id).0)
  {
    if id in s.lanes {
      var t := RequestRetire(s, id).0.lanes[id];
      SameLogOK(s.lanes[id], t);
      LaneKeeps(s, id, t);
    }
  }

  lemma ReportFollows(st: Lane)
    requires LaneOK(st)
    ensures Follows(st, ReportRetired(st))
  {
    SameLogOK(st, ReportRetired(st));
  }

  lemma RetirableKeeps(s: State)
    requires Inv(s)
    ensures Inv(Retirable(s).0)
  {
    forall id | id in s.lanes
      ensures Follows(s.lanes[id], ReportRetired(s.lanes[id]))
    {
      ReportFollows(s.lanes[id]);
    }
    LanesKeep(s, map id | id in s.lanes :: ReportRetired(s.lanes[id]));
  }

  lemma FlushFollows(st: Lane)
    requires LaneOK(st)
    ensures Follows(st, FlushLane(st))
  {
    SameLogOK(st, FlushLane(st));
  }

  lemma FlushableKeeps(s: State)
    requires Inv(s)
    ensures Inv(Flushable(s).0)
  {
    forall id | id in s.lanes
      ensures Follows(s.lanes[id], FlushLane(s.lanes[id]))
    {
      FlushFollows(s.lanes[id]);
    }
    LanesKeep(s, map id | id in s.lanes :: FlushLane(s.lanes[id]));
  }

  /** Dropping what an acknowledgement would have carried moves it to what is withheld. */
  lemma DropAckFollows(st: Lane)
    requires LaneOK(st)
    ensures Follows(st, DropAck(st))
  {
    SameLogOK(st, DropAck(st));
  }

  lemma RevokeKeeps(s: State, id: LaneID)
    requires Inv(s)
    ensures Inv(Revoke(s, id))
  {
    if id in s.lanes {
      var t := RevokeLane(s.lanes[id]);
      DropAckFollows(s.lanes[id]);
      SameLogOK(DropAck(s.lanes[id]), t);
      LaneKeeps(s, id, t);
    }
  }

  // ---- admission -----------------------------------------------------------------------------------

  lemma RunAppend(log: T.Log<Position>, e: T.Entry<Position>)
    ensures T.Run(log + [e]) >= T.Run(log)
  {
    T.RunSpec(log);
    T.RunSpec(log + [e]);
  }

  lemma PrefixGrows(st: Lane, t: Lane, p: Position)
    requires InPrefix(st, p) && T.Run(st.log) <= T.Run(t.log)
    requires forall i :: 0 <= i < T.Run(st.log) ==> t.log[i].payload == st.log[i].payload
    ensures InPrefix(t, p)
  {
    var i :| 0 <= i < T.Run(st.log) && st.log[i].payload == p;
    assert t.log[i].payload == p;
  }

  lemma AppendEntries(st: Lane, t: Lane, e: T.Entry<Position>, a: Admission)
    requires |st.log| == |st.history.admissions| && Ascending(st.log)
    requires Entries(st.log, st.history.admissions, st.seqno)
    requires EntryOK(e, a) && st.seqno < e.payload.seqno <= t.seqno
    requires t.log == st.log + [e] && t.history.admissions == st.history.admissions + [a]
    ensures Ascending(t.log) && Entries(t.log, t.history.admissions, t.seqno)
  {
    var n := |st.log|;
    forall i: nat | i < |t.log|
      ensures EntryAt(t.log, t.history.admissions, t.seqno, i)
    {
      assert i < n ==> EntryAt(st.log, st.history.admissions, st.seqno, i);
    }
    forall i: nat, j: nat | i < j < |t.log|
      ensures Before(t.log, i, j)
    {
      assert EntryAt(st.log, st.history.admissions, st.seqno, i);
      assert j < n ==> Before(st.log, i, j);
    }
  }

  /** One more admission, with a later sequence number than any before. */
  lemma AppendLane(st: Lane, t: Lane, e: T.Entry<Position>, a: Admission)
    requires LaneOK(st) && EntryOK(e, a) && st.seqno < e.payload.seqno <= t.seqno
    requires t.log == st.log + [e] && t.history.admissions == st.history.admissions + [a]
    requires t.ordering == st.ordering
    requires t.settledHandles == st.settledHandles && t.abandonedHandles == st.abandonedHandles
    requires t.pendingFlush == st.pendingFlush
          || (t.pendingFlush.Some? && t.pendingFlush.value.safe && InPrefix(t, t.pendingFlush.value))
    ensures LaneOK(t) && Extends(st, t)
  {
    RunAppend(st.log, e);
    AppendEntries(st, t, e, a);
    if t.pendingFlush == st.pendingFlush && st.pendingFlush.Some? {
      PrefixGrows(st, t, st.pendingFlush.value);
    }
  }

  /** An advance ends at the last admission of the run. */
  lemma AdvanceInPrefix(st: Lane, before: T.Log<Position>)
    requires T.Advance(before, st.log).Some?
    ensures InPrefix(st, T.Advance(before, st.log).value)
  {
    assert st.log[T.Run(st.log) - 1].payload == T.Advance(before, st.log).value;
  }

  lemma AdmitIdleOK(st0: Lane, st: Lane, pos: Position, a: Admission)
    requires LaneOK(st0) && st == st0.(seqno := st0.seqno + 1) && pos.seqno == st.seqno
    requires !a.kind.Carried? && (a.kind.Empty? ==> a.records == {})
    ensures LaneOK(AdmitIdle(st, pos, a)) && Extends(st0, AdmitIdle(st, pos, a))
  {
    var log := T.TrackResolved(st.log, pos);
    var t := AdmitIdle(st, pos, a);
    if T.Advance(st.log, log).Some? {
      AdvanceInPrefix(t, st.log);
    }
    AppendLane(st0, t, T.Entry(pos, 0, 0, false), a);
  }

  lemma AdmitEmptyKeeps(s: State, id: LaneID, pos: Position)
    requires Inv(s) && id in s.lanes && pos.seqno == s.lanes[id].seqno + 1
    ensures var st := s.lanes[id].(seqno := pos.seqno);
            Inv(SetLane(s, id, AdmitIdle(st, pos, Admission(Empty, {}, {}, st.epoch))))
  {
    var st := s.lanes[id].(seqno := pos.seqno);
    var a := Admission(Empty, {}, {}, st.epoch);
    AdmitIdleOK(s.lanes[id], st, pos, a);
    LaneKeeps(s, id, AdmitIdle(st, pos, a));
  }

  lemma ShedFollows(st0: Lane, b: Batch, pos: Position)
    requires LaneOK(st0) && pos.seqno == st0.seqno + 1
    ensures Follows(st0, ShedBatch(st0.(seqno := pos.seqno), b, pos))
  {
    var st := st0.(seqno := pos.seqno);
    var a := Admission(Shed, Ids(b.records), Ids(b.records), st.epoch);
    var t := AdmitIdle(st, pos, a);
    AdmitIdleOK(st0, st, pos, a);
    SameLogOK(t, ShedBatch(st, b, pos));
  }

  lemma ShedKeeps(s: State, b: Batch, pos: Position)
    requires Inv(s) && b.lane in s.lanes && pos.seqno == s.lanes[b.lane].seqno + 1
    ensures Inv(SetLane(s, b.lane, ShedBatch(s.lanes[b.lane].(seqno := pos.seqno), b, pos)))
  {
    ShedFollows(s.lanes[b.lane], b, pos);
    LaneKeeps(s, b.lane, ShedBatch(s.lanes[b.lane].(seqno := pos.seqno), b, pos));
  }

  lemma CountedFollows(st: Lane)
    requires LaneOK(st)
    ensures Follows(st, st.(seqno := st.seqno + 1))
  {
    var t := st.(seqno := st.seqno + 1);
    forall i: nat | i < |t.log|
      ensures EntryAt(t.log, t.history.admissions, t.seqno, i)
    {
      assert EntryAt(st.log, st.history.admissions, st.seqno, i);
    }
    if st.pendingFlush.Some? {
      PrefixGrows(st, t, st.pendingFlush.value);
    }
  }

  lemma CancelledKeeps(s: State, id: LaneID)
    requires Inv(s) && id in s.lanes
    ensures Inv(SetLane(s, id, s.lanes[id].(seqno := s.lanes[id].seqno + 1)))
  {
    CountedFollows(s.lanes[id]);
    LaneKeeps(s, id, s.lanes[id].(seqno := s.lanes[id].seqno + 1));
  }

  // ---- opening a group -------------------------------------------------------------------------------

  function RefusedLane(st: Lane, b: Batch, pos: Position): Lane {
    Append(st, T.Discharge(Track(st, b, pos), |st.log|, 0, true),
           Admission(Refused, Ids(b.records), Ids(b.records), st.epoch))
  }

  lemma RefusedFollows(st0: Lane, b: Batch, pos: Position)
    requires LaneOK(st0) && b.records != [] && pos.seqno == st0.seqno + 1
    ensures Follows(st0, RefusedLane(st0.(seqno := pos.seqno), b, pos))
  {
    var st := st0.(seqno := pos.seqno);
    T.RunTrack(st.log, pos, |b.records|, |b.records|);
    AppendLane(st0, RefusedLane(st, b, pos), T.Entry(pos, |b.records|, 0, true),
               Admission(Refused, Ids(b.records), Ids(b.records), st.epoch));
  }

  lemma RefusedKeeps(s: State, b: Batch, pos: Position)
    requires Inv(s) && b.lane in s.lanes && b.records != [] && pos.seqno == s.lanes[b.lane].seqno + 1
    requires b.group in s.groups
    ensures Inv(OpenGroup(s, s.lanes[b.lane].(seqno := pos.seqno), b, pos).0)
  {
    RefusedFollows(s.lanes[b.lane], b, pos);
    LaneKeeps(s, b.lane, RefusedLane(s.lanes[b.lane].(seqno := pos.seqno), b, pos));
  }

  lemma {:induction false} IdsBound(rs: seq<Rec>)
    ensures |Ids(rs)| <= |rs|
  {
    if rs == [] {
    } else {
      var init := rs[..|rs| - 1];
      IdsBound(init);
      assert Ids(rs) == Ids(init) + {rs[|rs| - 1].id} by {
        assert rs == init + [rs[|rs| - 1]];
      }
    }
  }

  /** The lane of a newly opened group. */
  lemma OpenedLane(s: State, b: Batch, pos: Position)
    requires Inv(s) && b.lane in s.lanes && b.records != [] && pos.seqno == s.lanes[b.lane].seqno + 1
    requires b.group !in s.groups
    ensures var st := s.lanes[b.lane].(seqno := pos.seqno);
            var t := OpenGroup(s, st, b, pos).0.lanes[b.lane];
            && LaneOK(t) && Extends(s.lanes[b.lane], t)
            && GroupOK(t, NewGroup(st, b))
            && t.history.admissions[|st.log|].left == Ids(b.records)
  {
    var st := s.lanes[b.lane].(seqno := pos.seqno);
    var t := OpenGroup(s, st, b, pos).0.lanes[b.lane];
    var n := |b.records|;
    IdsBound(b.records);
    var ids := Ids(b.records);
    AppendLane(s.lanes[b.lane], t, T.Entry(pos, n, n, false), Admission(Carried, ids, ids, st.epoch));
  }

  /** A group whose ticket is later than any other joins, and its records are now in flight. */
  lemma AddGroup(s: State, gid: GroupID, g: Group, ids: set<RecordID>)
    requires GroupsOK(s) && RecordsOK(s) && gid !in s.groups
    requires g.lane in s.lanes && GroupOK(s.lanes[g.lane], g)
    requires forall h :: h in s.groups && s.groups[h].lane == g.lane ==> s.groups[h].ticket < g.ticket
    requires s.lanes[g.lane].history.admissions[g.ticket].left == ids
    ensures var s' := s.(groups := s.groups[gid := g], byRec := MapRecords(s.byRec, ids, gid));
            GroupsOK(s') && RecordsOK(s')
  {
    var groups := s.groups[gid := g];
    forall x, y | x in groups && y in groups && x != y
      ensures Apart(groups, x, y)
    {
      assert x != gid && y != gid ==> Apart(s.groups, x, y);
    }
  }

  lemma ExtendOne(s: State, id: LaneID, t: Lane)
    requires GroupsOK(s) && RecordsOK(s) && id in s.lanes && Extends(s.lanes[id], t)
    requires forall i :: i in s.lanes ==> LaneOK(s.lanes[i])
    ensures GroupsOK(SetLane(s, id, t)) && RecordsOK(SetLane(s, id, t))
  {
    forall i | i in s.lanes && i != id
      ensures Extends(s.lanes[i], s.lanes[i])
    {
      FollowsItself(s.lanes[i]);
    }
    ExtendGroups(s, s.lanes[id := t]);
  }

  lemma OpenBooks(s: State, s': State, id: LaneID, gid: GroupID, g: Group)
    requires forall i :: i in s.lanes ==> LaneBalanced(s, i)
    requires id in s.lanes && s'.lanes.Keys == s.lanes.Keys && s'.acks == s.acks
    requires g.lane == id && gid !in s.groups && s'.groups == s.groups[gid := g]
    requires forall i :: i in s.lanes && i != id ==> s'.lanes[i] == s.lanes[i]
    requires var b := BooksOf(s.lanes[id]);
             BooksOf(s'.lanes[id]) == b.(pending := b.pending + 1, open := b.open + g.records)
    ensures forall i :: i in s'.lanes ==> LaneBalanced(s', i)
  {
    forall i | i in s'.lanes
      ensures LaneBalanced(s', i)
    {
      assert LaneBalanced(s, i);
      TotalAdd(s.groups, gid, g, i, Groups);
      TotalAdd(s.groups, gid, g, i, Records);
    }
  }

  lemma OpenGroups(s: State, b: Batch, pos: Position)
    requires Inv(s) && b.lane in s.lanes && b.records != [] && pos.seqno == s.lanes[b.lane].seqno + 1
    requires b.group !in s.groups
    ensures var s' := OpenGroup(s, s.lanes[b.lane].(seqno := pos.seqno), b, pos).0;
            GroupsOK(s') && RecordsOK(s')
  {
    var st := s.lanes[b.lane].(seqno := pos.seqno);
    var t := OpenGroup(s, st, b, pos).0.lanes[b.lane];
    OpenedLane(s, b, pos);
    ExtendOne(s, b.lane, t);
    forall h | h in s.groups && s.groups[h].lane == b.lane
      ensures s.groups[h].ticket < |st.log|
    {
      assert GroupOK(s.lanes[b.lane], s.groups[h]);
    }
    AddGroup(SetLane(s, b.lane, t), b.group, NewGroup(st, b), Ids(b.records));
  }

  lemma OpenBalanced(s: State, b: Batch, pos: Position)
    requires Inv(s) && b.lane in s.lanes && b.records != [] && pos.seqno == s.lanes[b.lane].seqno + 1
    requires b.group !in s.groups
    ensures var s' := OpenGroup(s, s.lanes[b.lane].(seqno := pos.seqno), b, pos).0;
            AcksOK(s') && forall i :: i in s'.lanes ==> LaneBalanced(s', i)
  {
    var st := s.lanes[b.lane].(seqno := pos.seqno);
    var s' := OpenGroup(s, st, b, pos).0;
    var books := BooksOf(s.lanes[b.lane]);
    assert BooksOf(s'.lanes[b.lane]) == books.(pending := books.pending + 1, open := books.open + |b.records|);
    OpenBooks(s, s', b.lane, b.group, NewGroup(st, b));
    OpenedAcks(s, s', b.lane);
  }

  lemma OpenKeeps(s: State, b: Batch, pos: Position)
    requires Inv(s) && b.lane in s.lanes && b.records != [] && pos.seqno == s.lanes[b.lane].seqno + 1
    requires b.group !in s.groups
    ensures Inv(OpenGroup(s, s.lanes[b.lane].(seqno := pos.seqno), b, pos).0)
  {
    OpenedLane(s, b, pos);
    OpenGroups(s, b, pos);
    OpenBalanced(s, b, pos);
  }

  lemma OpenedAcks(s: State, s': State, id: LaneID)
    requires AcksOK(s) && id in s.lanes && s'.acks == s.acks
    requires forall i :: i in s.lanes ==> i in s'.lanes && (s.lanes[i].finishAcked ==> s'.lanes[i].finishAcked)
    ensures AcksOK(s')
  {}

  lemma AdmitFittingKeeps(s: State, b: Batch)
    requires Inv(s) && b.lane in s.lanes && b.records != []
    ensures Inv(OpenGroup(s, s.lanes[b.lane].(seqno := Stamp(s, b).seqno), b, Stamp(s, b)).0)
  {
    if b.group in s.groups {
      RefusedKeeps(s, b, Stamp(s, b));
    } else {
      OpenKeeps(s, b, Stamp(s, b));
    }
  }

  lemma AdmitHeldKeeps(s: State, b: Batch)
    requires Inv(s) && b.lane in s.lanes
    ensures Inv(AdmitHeld(s, b).0)
  {
    var pos := Stamp(s, b);
    var st := s.lanes[b.lane].(seqno := pos.seqno);
    if b.records == [] {
      assert AdmitHeld(s, b).0 == SetLane(s, b.lane, AdmitIdle(st, pos, Admission(Empty, {}, {}, st.epoch)));
      AdmitEmptyKeeps(s, b.lane, pos);
    } else if T.Admits(st.log, st.budget, |b.records|) {
      assert AdmitHeld(s, b).0 == OpenGroup(s, st, b, pos).0;
      AdmitFittingKeeps(s, b);
    } else if Sheds(st.whenFull) {
      assert AdmitHeld(s, b).0 == SetLane(s, b.lane, ShedBatch(st, b, pos));
      ShedKeeps(s, b, pos);
    } else {
      assert AdmitHeld(s, b).0 == SetLane(s, b.lane, st);
      CancelledKeeps(s, b.lane);
    }
  }

  lemma AdmitKeeps(s: State, b: Batch)
    requires Inv(s)
    ensures Inv(Admit(s, b).0)
  {
    if Admit(s, b).0 != s {
      AdmitHeldKeeps(s, b);
      assert Admit(s, b).0 == AdmitHeld(s, b).0;
    }
  }

  // ---- settlement ------------------------------------------------------------------------------------

  /** The ticket's entry loses one reference, and the admission loses the record. */
  lemma NotedEntry(st: Lane, g: Group, o: Outcome)
    requires LaneOK(st) && GroupOK(st, g)
    ensures var t := Noted(st, g, o);
            var e, f := st.log[g.ticket], t.log[g.ticket];
            && t.log == st.log[g.ticket := f]
            && f.payload == e.payload && f.weight == e.weight && f.refs == g.refs - g.settled - 1
            && T.Run(t.log) >= T.Run(st.log)
            && var a := st.history.admissions[g.ticket];
               t.history.admissions == st.history.admissions[g.ticket := a.(left := a.left - {o.record})]
  {
    T.RunSpec(st.log);
    T.RunDischarge(st.log, g.ticket, 1, o.disposition == Abandoned && Complete(SettleGroup(g, o)));
  }

  lemma NotedEntries(st: Lane, t: Lane, i: nat)
    requires |st.log| == |st.history.admissions| && i < |st.log| && Ascending(st.log)
    requires Entries(st.log, st.history.admissions, st.seqno) && t.seqno == st.seqno
    requires |t.log| == |t.history.admissions| == |st.log|
    requires t.log == st.log[i := t.log[i]] && t.log[i].payload == st.log[i].payload
    requires t.history.admissions == st.history.admissions[i := t.history.admissions[i]]
    requires EntryOK(t.log[i], t.history.admissions[i])
    ensures Ascending(t.log) && Entries(t.log, t.history.admissions, t.seqno)
  {
    forall j: nat | j < |t.log|
      ensures EntryAt(t.log, t.history.admissions, t.seqno, j)
    {
      assert EntryAt(st.log, st.history.admissions, st.seqno, j);
    }
    forall j: nat, k: nat | j < k < |t.log|
      ensures Before(t.log, j, k)
    {
      assert Before(st.log, j, k);
    }
  }

  lemma OneFewer(left: set<RecordID>, r: RecordID)
    requires r in left
    ensures |left - {r}| == |left| - 1
    ensures |left| == 1 ==> left - {r} == {}
  {
    assert left == (left - {r}) + {r};
  }

  /** The group's own lane after an outcome for one of the records it waits for. */
  lemma NotedLane(st: Lane, g: Group, o: Outcome)
    requires LaneOK(st) && GroupOK(st, g) && o.record in st.history.admissions[g.ticket].left
    ensures var t := Noted(st, g, o);
            && LaneOK(t)
            && (Complete(SettleGroup(g, o)) ==> t.history.admissions[g.ticket].left == {})
            && (!Complete(SettleGroup(g, o)) ==> GroupOK(t, SettleGroup(g, o)))
  {
    var t := Noted(st, g, o);
    NotedEntry(st, g, o);
    assert EntryAt(st.log, st.history.admissions, st.seqno, g.ticket);
    OneFewer(st.history.admissions[g.ticket].left, o.record);
    NotedEntries(st, t, g.ticket);
    if st.pendingFlush.Some? {
      PrefixGrows(st, t, st.pendingFlush.value);
    }
  }

  /** Any other open group of the lane is as it was. */
  lemma NotedOther(st: Lane, g: Group, o: Outcome, h: Group)
    requires LaneOK(st) && GroupOK(st, g) && GroupOK(st, h) && h.ticket != g.ticket
    ensures GroupOK(Noted(st, g, o), h)
    ensures Noted(st, g, o).history.admissions[h.ticket] == st.history.admissions[h.ticket]
  {
    NotedEntry(st, g, o);
  }

  /** s' is s after outcome o for a record of group gid. */
  predicate AfterOutcome(s: State, s': State, gid: GroupID, o: Outcome)
    requires GroupsOK(s)
  {
    && gid in s.groups
    && o.record in s.byRec && s.byRec[o.record] == gid
    && s'.byRec == s.byRec - {o.record}
    && s'.groups == GroupsAfter(s.groups, gid, o)
    && s'.acks == s.acks
    && s'.lanes.Keys == s.lanes.Keys
    && var g := s.groups[gid];
       && (forall i :: i in s.lanes && i != g.lane ==> s'.lanes[i] == s.lanes[i])
       && LaneSettled(s.lanes[g.lane], s'.lanes[g.lane], g, o)
  }

  predicate LaneSettled(st: Lane, t: Lane, g: Group, o: Outcome)
    requires GroupOK(st, g)
  {
    var b := BooksOf(st);
    && LaneOK(t)
    && b.pending > 0
    && SameAdmissions(Noted(st, g, o), t)
    && t.finishAcked == st.finishAcked
    && BooksOf(t) ==
         if Complete(SettleGroup(g, o)) then b.(pending := b.pending - 1, open := b.open - g.records) else b
  }

  predicate SameAdmissions(st: Lane, t: Lane) {
    t.log == st.log && t.history.admissions == st.history.admissions && t.ordering == st.ordering
  }

  lemma OutcomeApart(s: State, s': State, gid: GroupID, o: Outcome)
    requires GroupsOK(s) && AfterOutcome(s, s', gid, o)
    ensures AllApart(s'.groups)
  {
    forall x, y | x in s'.groups && y in s'.groups && x != y
      ensures Apart(s'.groups, x, y)
    {
      assert Apart(s.groups, x, y);
    }
  }

  lemma OutcomeGroups(s: State, s': State, gid: GroupID, o: Outcome)
    requires GroupsOK(s) && RecordsOK(s) && (forall id :: id in s.lanes ==> LaneOK(s.lanes[id]))
    requires AfterOutcome(s, s', gid, o)
    ensures GroupsOK(s')
  {
    var id, g := s.groups[gid].lane, s.groups[gid];
    NotedLane(s.lanes[id], g, o);
    OutcomeApart(s, s', gid, o);
    forall h | h in s'.groups
      ensures s'.groups[h].lane in s'.lanes && GroupOK(s'.lanes[s'.groups[h].lane], s'.groups[h])
    {
      if h != gid && s.groups[h].lane == id {
        assert Apart(s.groups, h, gid);
        NotedOther(s.lanes[id], g, o, s.groups[h]);
      }
    }
  }

  lemma OutcomeRecords(s: State, s': State, gid: GroupID, o: Outcome)
    requires GroupsOK(s) && RecordsOK(s) && (forall id :: id in s.lanes ==> LaneOK(s.lanes[id]))
    requires AfterOutcome(s, s', gid, o)
    requires GroupsOK(s')
    ensures RecordsOK(s')
  {
    var id, g := s.groups[gid].lane, s.groups[gid];
    NotedLane(s.lanes[id], g, o);
    NotedEntry(s.lanes[id], g, o);
    forall r | r in s'.byRec
      ensures s'.byRec[r] in s'.groups
      ensures var h := s'.groups[s'.byRec[r]]; r in s'.lanes[h.lane].history.admissions[h.ticket].left
    {
      var h := s.byRec[r];
      assert r in s.lanes[s.groups[h].lane].history.admissions[s.groups[h].ticket].left;
      if h != gid && s.groups[h].lane == id {
        assert Apart(s.groups, h, gid);
        NotedOther(s.lanes[id], g, o, s.groups[h]);
      }
    }
  }

  /** Closing takes one group and its records out of the open totals; otherwise they stay. */
  lemma OutcomeTotal(groups: map<GroupID, Group>, gid: GroupID, o: Outcome, i: LaneID, m: Measure)
    requires gid in groups && (m == Groups || m == Records)
    ensures Total(GroupsAfter(groups, gid, o), i, m) ==
            Total(groups, i, m) - if Complete(SettleGroup(groups[gid], o)) then Share(groups[gid], i, m) else 0
  {
    TotalRemove(groups, gid, i, m);
    TotalUpdate(groups, gid, SettleGroup(groups[gid], o), i, m);
  }

  lemma OutcomeLaneBooks(s: State, s': State, gid: GroupID, o: Outcome, i: LaneID)
    requires GroupsOK(s) && AfterOutcome(s, s', gid, o) && i in s.lanes && LaneBalanced(s, i)
    ensures i in s'.lanes && LaneBalanced(s', i)
  {
    OutcomeTotal(s.groups, gid, o, i, Groups);
    OutcomeTotal(s.groups, gid, o, i, Records);
  }

  lemma OutcomeBooks(s: State, s': State, gid: GroupID, o: Outcome)
    requires GroupsOK(s) && (forall i :: i in s.lanes ==> LaneBalanced(s, i)) && AfterOutcome(s, s', gid, o)
    ensures forall i :: i in s'.lanes ==> LaneBalanced(s', i)
  {
    forall i | i in s'.lanes
      ensures LaneBalanced(s', i)
    {
      OutcomeLaneBooks(s, s', gid, o, i);
    }
  }

  /** An open group is counted by its lane, and its ticket and admission are in range. */
  lemma GroupIndexed(s: State, gid: GroupID)
    requires Inv(s) && gid in s.groups
    ensures Indexed(s.lanes[s.groups[gid].lane], s.groups[gid])
  {
    assert LaneBalanced(s, s.groups[gid].lane);
    TotalRemove(s.groups, gid, s.groups[gid].lane, Groups);
  }

  /** In a reachable state an outcome counts exactly when its record is in flight. */
  lemma SettlesInFlight(s: State, o: Outcome)
    requires Inv(s)
    ensures Settles(s, o) <==> o.record in s.byRec
  {
    if o.record in s.byRec {
      GroupIndexed(s, s.byRec[o.record]);
    }
  }

  /** The lane an outcome leaves behind. */
  lemma LaneAfterOK(st: Lane, g: Group, o: Outcome)
    requires LaneOK(st) && GroupOK(st, g) && st.pending > 0
    requires o.record in st.history.admissions[g.ticket].left
    ensures LaneSettled(st, LaneAfter(st, g, o), g, o)
  {
    NotedLane(st, g, o);
    if Complete(SettleGroup(g, o)) {
      ClosedLane(Noted(st, g, o), SettleGroup(g, o));
      SameLogOK(Noted(st, g, o), LaneAfter(st, g, o));
    }
  }

  /** Closing moves a group's records out of the open ones and touches no admission. */
  lemma ClosedLane(st: Lane, g: Group)
    requires st.pending > 0 && (st.ordering == Prefix ==> g.landed == [] && g.dropped == [])
    ensures var t, b := CloseGroup(st, g), BooksOf(st);
            && SameAdmissions(st, t) && t.pendingFlush == st.pendingFlush && t.seqno == st.seqno
            && t.finishAcked == st.finishAcked
            && BooksOf(t) == b.(pending := b.pending - 1, open := b.open - g.records)
            && (st.ordering == Prefix ==>
                  t.settledHandles == st.settledHandles && t.abandonedHandles == st.abandonedHandles)
  {}

  lemma SettleOneOutcome(s: State, o: Outcome)
    requires Inv(s) && Settles(s, o)
    ensures AfterOutcome(s, SettleOne(s, o).0, s.byRec[o.record], o)
  {
    var g := s.groups[s.byRec[o.record]];
    LaneAfterOK(s.lanes[g.lane], g, o);
  }

  lemma OutcomeKeeps(s: State, s': State, gid: GroupID, o: Outcome)
    requires Inv(s) && AfterOutcome(s, s', gid, o)
    ensures Inv(s')
  {
    OutcomeGroups(s, s', gid, o);
    OutcomeRecords(s, s', gid, o);
    OutcomeBooks(s, s', gid, o);
    OutcomeLanes(s, s', gid, o);
    OutcomeAcks(s, s', gid, o);
  }

  lemma OutcomeLanes(s: State, s': State, gid: GroupID, o: Outcome)
    requires GroupsOK(s) && (forall id :: id in s.lanes ==> LaneOK(s.lanes[id])) && AfterOutcome(s, s', gid, o)
    ensures forall id :: id in s'.lanes ==> LaneOK(s'.lanes[id])
  {}

  lemma OutcomeAcks(s: State, s': State, gid: GroupID, o: Outcome)
    requires GroupsOK(s) && AcksOK(s) && AfterOutcome(s, s', gid, o)
    ensures AcksOK(s')
  {
    forall i | i in s.lanes
      ensures s'.lanes[i].finishAcked == s.lanes[i].finishAcked
    {
      assert i != s.groups[gid].lane ==> s'.lanes[i] == s.lanes[i];
    }
  }

  lemma SettleOneKeeps(s: State, o: Outcome)
    requires Inv(s)
    ensures Inv(SettleOne(s, o).0)
  {
    if Settles(s, o) {
      SettleOneOutcome(s, o);
      OutcomeKeeps(s, SettleOne(s, o).0, s.byRec[o.record], o);
    }
  }

  // ---- publishing ------------------------------------------------------------------------------------

  /** Every advance yet to be published is in the prefix of its lane. */
  predicate AdvancesOK(s: State, advances: seq<Advance>) {
    forall i :: 0 <= i < |advances| ==>
      && advances[i].lane in s.lanes
      && InPrefix(s.lanes[advances[i].lane], advances[i].pos)
  }

  /** An outcome only ever lengthens prefixes. */
  lemma SettledPrefix(st: Lane, t: Lane, g: Group, o: Outcome, p: Position)
    requires LaneOK(st) && GroupOK(st, g) && LaneSettled(st, t, g, o) && InPrefix(st, p)
    ensures InPrefix(t, p)
  {
    NotedEntry(st, g, o);
    PrefixGrows(st, t, p);
  }

  lemma SettleOnePrefix(s: State, o: Outcome, id: LaneID, p: Position)
    requires Inv(s) && id in s.lanes && InPrefix(s.lanes[id], p)
    ensures id in SettleOne(s, o).0.lanes && InPrefix(SettleOne(s, o).0.lanes[id], p)
  {
    if Settles(s, o) {
      var g := s.groups[s.byRec[o.record]];
      SettleOneOutcome(s, o);
      if g.lane == id {
        SettledPrefix(s.lanes[id], SettleOne(s, o).0.lanes[id], g, o, p);
      }
    }
  }

  lemma AdvancesPrefix(st: Lane, t: Lane, g: Group, o: Outcome)
    requires LaneOK(st) && GroupOK(st, g) && SameAdmissions(Noted(st, g, o), t)
    ensures forall i :: 0 <= i < |AdvancesOf(st, g, o)| ==>
              AdvancesOf(st, g, o)[i].lane == g.lane && InPrefix(t, AdvancesOf(st, g, o)[i].pos)
  {
    if T.Advance(st.log, t.log).Some? {
      AdvanceInPrefix(t, st.log);
    }
  }

  lemma SettleOneAdvances(s: State, o: Outcome)
    requires Inv(s)
    ensures AdvancesOK(SettleOne(s, o).0, SettleOne(s, o).1)
  {
    if Settles(s, o) {
      var g := s.groups[s.byRec[o.record]];
      SettleOneOutcome(s, o);
      AdvancesPrefix(s.lanes[g.lane], SettleOne(s, o).0.lanes[g.lane], g, o);
    }
  }

  lemma {:induction false} SettleAllKeeps(s: State, outs: seq<Outcome>)
    requires Inv(s)
    ensures Inv(SettleAll(s, outs).0) && AdvancesOK(SettleAll(s, outs).0, SettleAll(s, outs).1)
  {
    if outs == [] {
    } else {
      var (s1, a1) := SettleAll(s, outs[..|outs| - 1]);
      var o := outs[|outs| - 1];
      SettleAllKeeps(s, outs[..|outs| - 1]);
      SettleOneKeeps(s1, o);
      SettleOneAdvances(s1, o);
      forall i | 0 <= i < |a1|
        ensures a1[i].lane in SettleOne(s1, o).0.lanes
        ensures InPrefix(SettleOne(s1, o).0.lanes[a1[i].lane], a1[i].pos)
      {
        SettleOnePrefix(s1, o, a1[i].lane, a1[i].pos);
      }
    }
  }

  lemma PublishFollows(st: Lane, p: Position)
    requires LaneOK(st) && InPrefix(st, p)
    ensures Follows(st, Publish(st, Some(p))) && Publish(st, Some(p)).log == st.log
  {
    if p.safe {
      PrefixGrows(st, Publish(st, Some(p)), p);
    } else if st.pendingFlush.Some? {
      PrefixGrows(st, Publish(st, Some(p)), st.pendingFlush.value);
    }
  }

  lemma PublishKeeps(s: State, a: Advance)
    requires Inv(s) && a.lane in s.lanes && InPrefix(s.lanes[a.lane], a.pos)
    ensures Inv(SetLane(s, a.lane, Publish(s.lanes[a.lane], Some(a.pos))))
  {
    PublishFollows(s.lanes[a.lane], a.pos);
    LaneKeeps(s, a.lane, Publish(s.lanes[a.lane], Some(a.pos)));
  }

  /** Publishing leaves the logs alone. */
  lemma {:induction false} PublishAllLogs(s: State, advances: seq<Advance>)
    ensures PublishAll(s, advances).lanes.Keys == s.lanes.Keys
    ensures forall id :: id in s.lanes ==> PublishAll(s, advances).lanes[id].log == s.lanes[id].log
  {
    if advances == [] {
    } else {
      PublishAllLogs(s, advances[..|advances| - 1]);
    }
  }

  lemma {:induction false} PublishAllKeeps(s: State, advances: seq<Advance>)
    requires Inv(s) && AdvancesOK(s, advances)
    ensures Inv(PublishAll(s, advances))
  {
    if advances == [] {
    } else {
      var init, a := advances[..|advances| - 1], advances[|advances| - 1];
      PublishAllKeeps(s, init);
      PublishAllLogs(s, init);
      PrefixGrows(s.lanes[a.lane], PublishAll(s, init).lanes[a.lane], a.pos);
      PublishKeeps(PublishAll(s, init), a);
    }
  }

  lemma SettleKeeps(s: State, outs: seq<Outcome>)
    requires Inv(s)
    ensures Inv(Settle(s, outs))
  {
    SettleAllKeeps(s, outs);
    PublishAllKeeps(SettleAll(s, outs).0, SettleAll(s, outs).1);
  }

  // ---- acknowledging -----------------------------------------------------------------------------------

  lemma AckedSameOK(st: Lane)
    requires LaneOK(st)
    ensures LaneOK(Acked(st)) && Extends(st, Acked(st))
  {
    SameLogOK(st, Acked(st));
  }

  lemma CommittedSame(st: Lane, pos: Position)
    requires LaneOK(st)
    ensures Follows(st, st.(committed := Some(pos)))
  {
    SameLogOK(st, st.(committed := Some(pos)));
  }

  /** One acknowledgement goes out for a lane that was not told before that it is finished. */
  lemma AckNowKeeps(s: State, id: LaneID, ack: Ack)
    requires Inv(s) && id in s.lanes && !s.lanes[id].finishAcked
    requires ack.lane == id && ack.records == s.lanes[id].ackRecords && ack.laneFinished == FinalAck(s.lanes[id])
    ensures Inv(SetLane(s, id, Acked(s.lanes[id])).(acks := s.acks + [ack]))
  {
    var s' := SetLane(s, id, Acked(s.lanes[id])).(acks := s.acks + [ack]);
    AckedSameOK(s.lanes[id]);
    ExtendOne(s, id, Acked(s.lanes[id]));
    AckBooks(s, s', id, ack);
    AckFinal(s, s', id, ack);
  }

  lemma AckKeeps(s: State, id: LaneID, st: Lane, ack: Ack)
    requires Inv(s) && id in s.lanes && Follows(s.lanes[id], st) && !st.finishAcked
    requires ack.lane == id && ack.records == st.ackRecords && ack.laneFinished == FinalAck(st)
    ensures Inv(SetLane(s, id, Acked(st)).(acks := s.acks + [ack]))
  {
    LaneKeeps(s, id, st);
    AckNowKeeps(SetLane(s, id, st), id, ack);
    assert s.lanes[id := st][id := Acked(st)] == s.lanes[id := Acked(st)];
  }

  lemma AckBooks(s: State, s': State, id: LaneID, ack: Ack)
    requires (forall i :: i in s.lanes ==> LaneBalanced(s, i)) && id in s.lanes
    requires s'.lanes == s.lanes[id := Acked(s.lanes[id])] && s'.groups == s.groups && s'.acks == s.acks + [ack]
    requires ack.lane == id && ack.records == s.lanes[id].ackRecords
    ensures forall i :: i in s'.lanes ==> LaneBalanced(s', i)
  {
    assert s'.acks[..|s.acks|] == s.acks;
    forall i | i in s'.lanes
      ensures LaneBalanced(s', i)
    {
      assert LaneBalanced(s, i);
    }
  }

  lemma AckFinal(s: State, s': State, id: LaneID, ack: Ack)
    requires AcksOK(s) && id in s.lanes && !s.lanes[id].finishAcked
    requires s'.lanes == s.lanes[id := Acked(s.lanes[id])] && s'.acks == s.acks + [ack]
    requires ack.lane == id && ack.laneFinished == FinalAck(s.lanes[id])
    ensures AcksOK(s')
  {
    forall i: nat, j: nat | i < j < |s'.acks|
      ensures NotFinalBefore(s'.acks, i, j)
    {
      assert j < |s.acks| ==> NotFinalBefore(s.acks, i, j);
    }
  }

  lemma EmitLaneKeeps(s: State, id: LaneID)
    requires Inv(s) && id in s.lanes
    ensures var (st, out) := EmitLane(id, s.lanes[id]); Inv(SetLane(s, id, st).(acks := s.acks + out))
  {
    var st := s.lanes[id];
    FollowsItself(st);
    assert s.acks + [] == s.acks;
    if st.ordering != Discrete || !HasHandles(st) {
      LaneKeeps(s, id, st);
    } else if Silent(st) {
      DropAckFollows(st);
      LaneKeeps(s, id, DropAck(st));
    } else {
      AckKeeps(s, id, st, MakeAck(id, st, None));
    }
  }

  lemma CommitLaneKeeps(s: State, id: LaneID, pos: Position)
    requires Inv(s) && id in s.lanes
    ensures var (st, out) := CommitLane(id, s.lanes[id], pos); Inv(SetLane(s, id, st).(acks := s.acks + out))
  {
    var st := s.lanes[id].(committed := Some(pos));
    CommittedSame(s.lanes[id], pos);
    assert s.acks + [] == s.acks;
    if st.ordering != Prefix {
      LaneKeeps(s, id, st);
    } else if Silent(st) {
      DropAckFollows(st);
      LaneKeeps(s, id, DropAck(st));
    } else {
      AckKeeps(s, id, st, MakeAck(id, st, Some(pos)));
    }
  }

  lemma {:induction false} EmitDiscreteKeeps(s: State, order: seq<LaneID>)
    requires Inv(s)
    ensures Inv(EmitDiscrete(s, order))
  {
    if order == [] {
    } else {
      EmitDiscreteKeeps(s, order[..|order| - 1]);
      var s1 := EmitDiscrete(s, order[..|order| - 1]);
      if order[|order| - 1] in s1.lanes {
        EmitLaneKeeps(s1, order[|order| - 1]);
      }
    }
  }

  lemma {:induction false} CommittedKeeps(s: State, m: map<LaneID, Position>, order: seq<LaneID>)
    requires Inv(s)
    ensures Inv(Committed(s, m, order))
  {
    if order == [] {
    } else {
      CommittedKeeps(s, m, order[..|order| - 1]);
      var s1 := Committed(s, m, order[..|order| - 1]);
      var id := order[|order| - 1];
      if id in s1.lanes && id in m {
        CommitLaneKeeps(s1, id, m[id]);
      }
    }
  }
}
