/**
 A pipeline across crashes: a source read lane by lane, the ledger, the flush cycle, the durable
 cursors and what the upstream was told. The only things that survive a crash are the cursors,
 what the upstream was told, and what has happened to the source's records.
 */
module PipelineSpec {
  import opened Wrappers
  import opened Records
  import opened LedgerSpec
  import opened LedgerRuns

  /** A record as the upstream knows it; offsets count from one in each lane. */
  datatype Source = Source(lane: LaneID, offset: int)

  /** Where one flush cycle is: between its calls of Flushable, the durable write and Committed. */
  datatype Phase = Idle | Offered(m: map<LaneID, Position>) | Stored(m: map<LaneID, Position>)

  /**
   What a run has taken in of a lane: where it resumed, the offset each admitted batch reached,
   and the offset last handed to a flush.
   */
  datatype Reading = Reading(base: int, uptos: seq<int>, mark: int)

  /** A batch the source has produced and the ledger has not answered for: the range it covers, and its records. */
  datatype Made = Made(batch: Batch, from: int, upto: int, offsets: map<RecordID, int>)

  /**
   `places` is how far the source itself has come in this run, `hands` what it produced and nobody
   has answered for. `origin` says which upstream record an admitted record is. Of the upstream's
   records, `terminal` have reached their end, and `lost` were produced and thrown away with no
   outcome at all. `dropped` are the lanes that lost something since the last restart.
   */
  datatype Pipe = Pipe(
    led: State, phase: Phase, pumped: nat, readings: map<LaneID, Reading>,
    places: map<LaneID, int>, hands: map<LaneID, Made>, dropped: set<LaneID>, origin: map<RecordID, Source>,
    cursors: map<LaneID, int>, told: map<LaneID, int>, terminal: set<Source>, lost: set<Source>)

  datatype Move =
    | Register(lane: LaneID, ordering: Ordering, budget: nat, whenFull: WhenFull, dflt: nat)
    | Produce(batch: Batch, upto: int, offsets: map<RecordID, int>)
    | Present(lane: LaneID)
    | Drop(lane: LaneID)
    | Call(op: Op)
    | Take
    | Persist
    | GiveUp
    | Confirm(order: seq<LaneID>)
    | Pump
    | Crash

  function Start(): Pipe {
    Pipe(Initial(), Idle, 0, map[], map[], map[], {}, map[], map[], map[], {}, {})
  }

  /** A restart resumes from the stored cursor, or from the beginning. */
  function ResumeAt(p: Pipe, id: LaneID): int {
    if id in p.cursors then p.cursors[id] else 0
  }

  /** The upstream records of a lane in a range of offsets. */
  function Span(id: LaneID, low: int, high: int): set<Source> {
    set o | low < o <= high :: Source(id, o)
  }

  function Origins(id: LaneID, offsets: map<RecordID, int>): map<RecordID, Source> {
    map r | r in offsets :: Source(id, offsets[r])
  }

  /** The upstream records a batch carries. */
  function Sources(id: LaneID, offsets: map<RecordID, int>): set<Source> {
    set r | r in offsets :: Source(id, offsets[r])
  }

  // ---- the source ------------------------------------------------------------------------------------

  /**
   A source reads each lane forward from where it is, whatever became of what it produced before. A
   position is a place to resume from only when it is safe.
   */
  predicate Producible(p: Pipe, b: Batch, upto: int, offsets: map<RecordID, int>) {
    && b.lane in p.led.lanes && b.lane in p.places && b.lane !in p.hands
    && p.places[b.lane] <= upto
    && (b.pos.safe ==> b.pos.token == upto)
    && offsets.Keys == Ids(b.records)
    && (forall r :: r in offsets ==> p.places[b.lane] < offsets[r] <= upto)
  }

  /** What the source passes over in the range of a batch is over with: it has nothing to deliver there. */
  function DoProduce(p: Pipe, b: Batch, upto: int, offsets: map<RecordID, int>): Pipe
    requires b.lane in p.places
  {
    var from := p.places[b.lane];
    p.(places := p.places[b.lane := upto],
       hands := p.hands[b.lane := Made(b, from, upto, offsets)],
       terminal := p.terminal + (Span(b.lane, from, upto) - Sources(b.lane, offsets)))
  }

  /** Record and group ids are fresh. */
  predicate Presentable(p: Pipe, id: LaneID) {
    && id in p.hands && id in p.readings && id in p.led.lanes && p.hands[id].batch.lane == id
    && p.hands[id].offsets.Keys !! p.origin.Keys
    && p.hands[id].batch.group !in p.led.groups
  }

  /** A batch that was not taken in, answered or not, leaves no trace but what it lost. */
  function DoDrop(p: Pipe, id: LaneID): Pipe
    requires id in p.hands
  {
    var gone := Sources(id, p.hands[id].offsets) - p.terminal;
    p.(hands := p.hands - {id}, lost := p.lost + gone,
       dropped := if gone == {} then p.dropped else p.dropped + {id})
  }

  /** The batch is in the lane's log; when it was shed, its records are over with. */
  function Took(p: Pipe, id: LaneID, led: State, e: Option<Error>): Pipe
    requires id in p.hands && id in p.readings
  {
    var m, r := p.hands[id], p.readings[id];
    p.(led := led, readings := p.readings[id := r.(uptos := r.uptos + [m.upto])],
       hands := p.hands - {id}, origin := p.origin + Origins(id, m.offsets),
       terminal := if e == Some(WasShed) then p.terminal + Sources(id, m.offsets) else p.terminal)
  }

  function DoPresent(p: Pipe, id: LaneID): Pipe
    requires id in p.hands && id in p.readings
  {
    var (led, e) := Admit(p.led, p.hands[id].batch);
    if KindOf(p.hands[id].batch, e).Some? then Took(p, id, led, e) else DoDrop(p, id).(led := led)
  }

  // ---- the ledger and the flush cycle ------------------------------------------------------------------

  /** Upstream records that reached an outcome by a call of the ledger. */
  function Concluded(p: Pipe, op: Op): set<Source> {
    set r | r in Gone(op) && r in p.origin :: p.origin[r]
  }

  function Marked(readings: map<LaneID, Reading>, m: map<LaneID, Position>): map<LaneID, Reading> {
    map id | id in readings :: if id in m then readings[id].(mark := m[id].token) else readings[id]
  }

  function Join(p: Pipe, id: LaneID, ordering: Ordering, budget: nat, whenFull: WhenFull, dflt: nat): Pipe {
    if id in p.led.lanes then p
    else p.(led := RegisterLane(p.led, id, ordering, budget, whenFull, dflt).0,
            readings := p.readings[id := Reading(ResumeAt(p, id), [], ResumeAt(p, id))],
            places := p.places[id := ResumeAt(p, id)])
  }

  function DoCall(p: Pipe, op: Op): Pipe {
    p.(led := Step(p.led, op), terminal := p.terminal + Concluded(p, op))
  }

  function DoTake(p: Pipe): Pipe {
    var (led, m) := Flushable(p.led);
    p.(led := led, phase := Offered(m), readings := Marked(p.readings, m))
  }

  /** One atomic write of every cursor offered. */
  function DoPersist(p: Pipe): Pipe
    requires p.phase.Offered?
  {
    p.(phase := Stored(p.phase.m), cursors := p.cursors + map id | id in p.phase.m :: p.phase.m[id].token)
  }

  function DoConfirm(p: Pipe, order: seq<LaneID>): Pipe
    requires p.phase.Stored?
  {
    p.(phase := Idle, led := Committed(p.led, p.phase.m, order))
  }

  /** The commit pump hands the next acknowledgement to the source. */
  function DoPump(p: Pipe): Pipe
    requires p.pumped < |p.led.acks|
  {
    var ack := p.led.acks[p.pumped];
    if ack.through.None? then p.(pumped := p.pumped + 1)
    else p.(pumped := p.pumped + 1, told := p.told[ack.lane := ack.through.value.token])
  }

  /** What was lost beyond the stored cursor is read again. */
  function DoCrash(p: Pipe): Pipe {
    p.(led := Initial(), phase := Idle, pumped := 0, readings := map[], places := map[], hands := map[],
       dropped := {}, origin := map[],
       lost := set x | x in p.lost && x.offset <= ResumeAt(p, x.lane))
  }

  // ---- runs --------------------------------------------------------------------------------------------

  predicate Callable(op: Op) { !op.DoAdmit? && !op.DoFlushable? && !op.DoCommitted? && !op.DoRegister? }

  predicate Enabled(p: Pipe, m: Move) {
    match m
    case Produce(b, upto, offsets) => Producible(p, b, upto, offsets)
    case Present(id) => Presentable(p, id)
    case Drop(id) => id in p.hands
    case Call(op) => Callable(op)
    case Take => p.phase.Idle?
    case Persist => p.phase.Offered?
    case Confirm(_) => p.phase.Stored?
    case Pump => p.pumped < |p.led.acks|
    case _ => true
  }

  function After(p: Pipe, m: Move): Pipe
    requires Enabled(p, m)
  {
    match m
    case Register(id, ordering, budget, whenFull, dflt) => Join(p, id, ordering, budget, whenFull, dflt)
    case Produce(b, upto, offsets) => DoProduce(p, b, upto, offsets)
    case Present(id) => DoPresent(p, id)
    case Drop(id) => DoDrop(p, id)
    case Call(op) => DoCall(p, op)
    case Take => DoTake(p)
    case Persist => DoPersist(p)
    case GiveUp => p.(phase := Idle)
    case Confirm(order) => DoConfirm(p, order)
    case Pump => DoPump(p)
    case Crash => DoCrash(p)
  }

  predicate AllEnabled(p: Pipe, ms: seq<Move>)
    decreases |ms|, 0
  {
    ms == [] || (AllEnabled(p, ms[..|ms| - 1]) && Enabled(Moves(p, ms[..|ms| - 1]), ms[|ms| - 1]))
  }

  function Moves(p: Pipe, ms: seq<Move>): Pipe
    requires AllEnabled(p, ms)
    decreases |ms|, 1
  {
    if ms == [] then p else After(Moves(p, ms[..|ms| - 1]), ms[|ms| - 1])
  }

  // ---- what is promised --------------------------------------------------------------------------------

  predicate AllIn(decided: set<Source>, id: LaneID, token: int) {
    forall o :: 0 < o <= token ==> Source(id, o) in decided
  }

  /** The upstream is never told to advance past the stored cursor. */
  predicate NeverAhead(p: Pipe) {
    forall id :: id in p.told ==> id in p.cursors && p.told[id] <= p.cursors[id]
  }

  /** And every record at or before the stored cursor has reached its end. */
  predicate Safe(p: Pipe) {
    NeverAhead(p) && forall id :: id in p.cursors ==> AllIn(p.terminal, id, p.cursors[id])
  }
}
