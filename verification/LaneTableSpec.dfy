/**
 The lane table: an in-memory view over a versioned store, gates between groups of lanes, a finish
 in two parts, and the supervisor that waits for lanes to appear. Every lock region and every
 store call is one step, so steps of the read loop, the flush loop and announcers interleave freely.
 */
module LaneTableSpec {
  import opened Records
  import L = LedgerSpec
  import Runs = LedgerRuns

  type Group = nat

  datatype Spec = Spec(group: Group, startAfter: seq<Group>)

  /** A lane's row: `stamped` is a non-zero time of finishing, `epoch` the lease its cursor was written under. */
  datatype LaneRec = LaneRec(spec: Spec, cursor: int, epoch: nat, finished: bool, stamped: bool)

  /** A stored row; the store counts its writes. */
  datatype Row = Row(rec: LaneRec, version: nat)

  /** What an announcement tells the ledger of a lane, new or known. */
  datatype Reg = Reg(lane: LaneID, ordering: Ordering, budget: nat, whenFull: WhenFull, dflt: nat)

  type Table = map<LaneID, LaneRec>
  type Store = map<LaneID, Row>

  /** Whether a batch has been sent to the store, and the answer. */
  datatype Landing = Unsent | Landed | Refused

  /** Who holds the write lock, and how far it is. */
  datatype Writer =
    | Free
    | Announcing(added: map<LaneID, Spec>, regs: seq<Reg>, landing: Landing)
    | Announced(joined: set<LaneID>, regs: seq<Reg>)
    | Staging(staged: map<LaneID, int>, epoch: nat, landing: Landing)
    | Mutating(lane: LaneID, next: LaneRec, retires: bool, landing: Landing)

  /** The loop that waits for lanes it is not reading; a channel is the number of its generation. */
  datatype Supervisor =
    | Outside(owned: set<LaneID>)
    | Holding(owned: set<LaneID>, channel: nat)
    | Parked(owned: set<LaneID>, channel: nat)

  /**
   `versions` are what the next write of a row presents. `retiring` are lanes the ledger cleared
   for a durable finish, `marking` those it did not and that are about to be marked pending,
   `notifying` retirers that have updated the table and not yet closed the channel. `requested`
   are lanes a finish was ever asked for. `unheard` are lanes put into the table, since the supervisor
   last took the channel, by announcers that then failed and closed nothing.
   */
  datatype State = State(
    store: Store, lanes: Table, versions: map<LaneID, nat>, finishPending: set<LaneID>, changes: nat,
    writer: Writer, retiring: set<LaneID>, marking: set<LaneID>, notifying: seq<LaneID>,
    requested: set<LaneID>, led: L.State, supervisor: Supervisor, unheard: set<LaneID>)

  datatype Step =
    | AnnounceBegin(specs: map<LaneID, Spec>, regs: seq<Reg>)
    | StageBegin(positions: map<LaneID, int>, epoch: nat)
    | SeedBegin(lane: LaneID, cursor: int)
    | RetireBegin(lane: LaneID)
    | Write(up: bool)
    | Apply
    | RegisterNext
    | AnnounceNotify
    | RetireNotify(at: nat)
    | FinishRequest(lane: LaneID)
    | FinishMark(lane: LaneID)
    | Collect
    | Call(op: Runs.Op)
    | TakeChannel
    | Check
    | Wake
    | Leave

  // ---- reading the table -------------------------------------------------------------------------

  /** A finish opens gates only once it is durable and stamped. */
  predicate Done(r: LaneRec) { r.finished && r.stamped }

  predicate Waiting(lanes: Table, g: Group) {
    exists id :: id in lanes && lanes[id].spec.group == g && !Done(lanes[id])
  }

  /** The groups a lane still waits for. */
  predicate Gated(lanes: Table, r: LaneRec) {
    exists i :: 0 <= i < |r.spec.startAfter| && Waiting(lanes, r.spec.startAfter[i])
  }

  /** The lanes the table offers for reading. */
  predicate Offered(lanes: Table, finishPending: set<LaneID>, id: LaneID) {
    && id in lanes && !lanes[id].finished && id !in finishPending
    && !Gated(lanes, lanes[id])
  }

  predicate Readable(s: State, id: LaneID) { Offered(s.lanes, s.finishPending, id) }

  function Assigned(s: State): set<LaneID> {
    set id | id in s.lanes && Readable(s, id)
  }

  // ---- the store ---------------------------------------------------------------------------------

  function Version(store: Store, id: LaneID): nat { if id in store then store[id].version else 0 }

  /** One atomic batch: every row must be at the version presented, and goes up by one. */
  function Put(store: Store, rows: Table): Store {
    store + map id | id in rows :: Row(rows[id], Version(store, id) + 1)
  }

  predicate Accepts(store: Store, rows: Table, versions: map<LaneID, nat>) {
    forall id :: id in rows ==> Version(store, id) == (if id in versions then versions[id] else 0)
  }

  // ---- the writers -------------------------------------------------------------------------------

  function Fresh(sp: Spec): LaneRec { LaneRec(sp, 0, 0, false, false) }

  function FreshRows(added: map<LaneID, Spec>): Table { map id | id in added :: Fresh(added[id]) }

  function FirstVersions(added: map<LaneID, Spec>): map<LaneID, nat> { map id | id in added :: 1 }

  function Known(positions: map<LaneID, int>, lanes: Table): map<LaneID, int> {
    map id | id in positions && id in lanes :: positions[id]
  }

  function CursorRows(lanes: Table, staged: map<LaneID, int>, epoch: nat): Table
    requires staged.Keys <= lanes.Keys
  {
    map id | id in staged :: lanes[id].(cursor := staged[id], epoch := epoch)
  }

  function MovedCursors(lanes: Table, staged: map<LaneID, int>): Table {
    map id | id in lanes :: if id in staged then lanes[id].(cursor := staged[id]) else lanes[id]
  }

  function Bumped(versions: map<LaneID, nat>, staged: map<LaneID, int>): map<LaneID, nat> {
    map id | id in versions :: if id in staged then versions[id] + 1 else versions[id]
  }

  /** The rows the holder of the write lock sends. */
  function Rows(s: State): Table
    requires s.writer.Staging? ==> s.writer.staged.Keys <= s.lanes.Keys
  {
    match s.writer
    case Announcing(added, _, _) => FreshRows(added)
    case Staging(staged, epoch, _) => CursorRows(s.lanes, staged, epoch)
    case Mutating(id, next, _, _) => map[id := next]
    case _ => map[]
  }

  predicate Unsettled(w: Writer) { (w.Announcing? || w.Staging? || w.Mutating?) && w.landing.Unsent? }

  predicate Settled(w: Writer) { (w.Announcing? || w.Staging? || w.Mutating?) && !w.landing.Unsent? }

  function Answer(w: Writer, l: Landing): Writer
    requires Unsettled(w)
  {
    match w
    case Announcing(added, regs, _) => Announcing(added, regs, l)
    case Staging(staged, epoch, _) => Staging(staged, epoch, l)
    case Mutating(id, next, retires, _) => Mutating(id, next, retires, l)
  }

  /** The store call: it lands when the store is up and every version matches, and else changes nothing. */
  function DoWrite(s: State, up: bool): State
    requires Unsettled(s.writer) && (s.writer.Staging? ==> s.writer.staged.Keys <= s.lanes.Keys)
  {
    if up && Accepts(s.store, Rows(s), s.versions) then
      s.(store := Put(s.store, Rows(s)), writer := Answer(s.writer, Landed))
    else s.(writer := Answer(s.writer, Refused))
  }

  /** The view follows what landed; a cursor flush does not note the epoch it wrote. */
  function DoApply(s: State): State
    requires Settled(s.writer)
  {
    if s.writer.landing.Refused? then s.(writer := Free)
    else
      match s.writer
      case Announcing(added, regs, _) =>
        s.(lanes := s.lanes + FreshRows(added), versions := s.versions + FirstVersions(added),
           writer := Announced(added.Keys, regs))
      case Staging(staged, _, _) =>
        s.(lanes := MovedCursors(s.lanes, staged), versions := Bumped(s.versions, staged), writer := Free)
      case Mutating(id, next, retires, _) =>
        s.(lanes := s.lanes[id := next],
           versions := s.versions[id := (if id in s.versions then s.versions[id] else 0) + 1],
           notifying := if retires then s.notifying + [id] else s.notifying,
           writer := Free)
  }

  /** A finish is asked for; the ledger says whether it may be written now. */
  function DoFinish(s: State, id: LaneID): State {
    var (led, now) := L.RequestRetire(s.led, id);
    var s := s.(led := led, requested := s.requested + {id});
    if now then s.(retiring := s.retiring + {id}) else s.(marking := s.marking + {id})
  }

  /** The lanes an announcement adds; those the table knows are left as they are. */
  function Added(specs: map<LaneID, Spec>, lanes: Table): map<LaneID, Spec> {
    map id | id in specs && id !in lanes :: specs[id]
  }

  /** The store is asked only when there is a row to write. */
  function BeginAnnounce(added: map<LaneID, Spec>, regs: seq<Reg>): Writer {
    if added == map[] then Announced({}, regs) else Announcing(added, regs, Unsent)
  }

  /** The next lane is registered with the ledger; a refusal ends the announcement, and nobody is woken. */
  function DoRegister(s: State): State
    requires s.writer.Announced? && s.writer.regs != []
  {
    var r := s.writer.regs[0];
    var (led, e) := L.RegisterLane(s.led, r.lane, r.ordering, r.budget, r.whenFull, r.dflt);
    if e.None? then s.(led := led, writer := Announced(s.writer.joined, s.writer.regs[1..]))
    else s.(writer := Free, unheard := s.unheard + s.writer.joined)
  }

  predicate Enabled(s: State, step: Step) {
    match step
    case AnnounceBegin(specs, regs) => s.writer.Free? && specs != map[] && (set r | r in regs :: r.lane) == specs.Keys
    case StageBegin(_, _) => s.writer.Free?
    case SeedBegin(id, _) => s.writer.Free? && id in s.lanes && s.lanes[id].cursor == 0
    case RetireBegin(id) => s.writer.Free? && id in s.retiring && id in s.lanes
    case Write(_) => Unsettled(s.writer) && (s.writer.Staging? ==> s.writer.staged.Keys <= s.lanes.Keys)
    case Apply => Settled(s.writer)
    case RegisterNext => s.writer.Announced? && s.writer.regs != []
    case AnnounceNotify => s.writer.Announced? && s.writer.regs == []
    case RetireNotify(at) => at < |s.notifying|
    case FinishMark(id) => id in s.marking
    case Call(op) =>
      && !op.DoRequestRetire? && !op.DoRetirable?
      && (op.DoAdmit? ==> op.batch.lane !in s.requested)
    case TakeChannel => s.supervisor.Outside?
    case Check => s.supervisor.Holding?
    case Wake => s.supervisor.Parked? && s.supervisor.channel < s.changes
    case Leave => s.supervisor.Parked?
    case _ => true
  }

  function DoCheck(s: State): State
    requires s.supervisor.Holding?
  {
    var owned := s.supervisor.owned;
    if Assigned(s) <= owned then s.(supervisor := Parked(owned, s.supervisor.channel))
    else s.(supervisor := Outside(Assigned(s)))
  }

  function Next(s: State, step: Step): State
    requires Enabled(s, step)
  {
    match step
    case AnnounceBegin(specs, regs) => s.(writer := BeginAnnounce(Added(specs, s.lanes), regs))
    case StageBegin(positions, epoch) =>
      s.(writer := Staging(Known(positions, s.lanes), epoch, Unsent))
    case SeedBegin(id, cursor) => s.(writer := Mutating(id, s.lanes[id].(cursor := cursor), false, Unsent))
    case RetireBegin(id) =>
      s.(writer := Mutating(id, s.lanes[id].(finished := true, stamped := true), true, Unsent),
          retiring := s.retiring - {id})
    case Write(up) => DoWrite(s, up)
    case Apply => DoApply(s)
    case RegisterNext => DoRegister(s)
    case AnnounceNotify => s.(changes := s.changes + 1, writer := Free)
    case RetireNotify(at) =>
      s.(finishPending := s.finishPending - {s.notifying[at]}, changes := s.changes + 1,
         notifying := s.notifying[..at] + s.notifying[at + 1..])
    case FinishRequest(id) => DoFinish(s, id)
    case FinishMark(id) =>
      s.(finishPending := s.finishPending + {id}, marking := s.marking - {id}, changes := s.changes + 1)
    case Collect =>
      var (led, out) := L.Retirable(s.led);
      s.(led := led, retiring := s.retiring + out)
    case Call(op) => s.(led := Runs.Step(s.led, op))
    case TakeChannel => s.(supervisor := Holding(s.supervisor.owned, s.changes), unheard := {})
    case Check => DoCheck(s)
    case Wake => s.(supervisor := Outside(s.supervisor.owned))
    case Leave => s.(supervisor := Outside(s.supervisor.owned))
  }

  /** A restart reads every row of the store; a lane stored as finished is not read again. */
  function Load(store: Store): State {
    State(store, map id | id in store :: store[id].rec, map id | id in store :: store[id].version, {}, 0,
          Free, {}, {}, [], (set id | id in store && store[id].rec.finished), L.Initial(), Outside({}), {})
  }

  predicate AllEnabled(s: State, steps: seq<Step>)
    decreases |steps|, 0
  {
    steps == [] || (AllEnabled(s, steps[..|steps| - 1]) && Enabled(Run(s, steps[..|steps| - 1]), steps[|steps| - 1]))
  }

  function Run(s: State, steps: seq<Step>): State
    requires AllEnabled(s, steps)
    decreases |steps|, 1
  {
    if steps == [] then s else Next(Run(s, steps[..|steps| - 1]), steps[|steps| - 1])
  }
}
