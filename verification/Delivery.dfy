/**
 The pipeline with its sinks: a record's outcome comes from a sink that wrote it, a flush that made
 it durable, a commit that published it, or its being abandoned; and one atomic write stores the
 cursors together with the committables.
 */
module Delivery {
  import opened Wrappers
  import opened Records
  import opened LedgerSpec
  import opened LedgerInv
  import opened LedgerRuns
  import opened PipelineSpec
  import opened PipelineLanes
  import opened Pipeline
  import opened Counting
  import C = CommitSpec
  import CI = CommitInv
  import E = CommitEarly
  import F = LedgerFence
  import T = TrackerSpec

  /**
   Where the upstream's records went, of those that reached their end. Of the records a commit settled,
   `published` were behind a checkpoint at or below one the sink confirmed, and `early` were not.
   */
  datatype Fates = Fates(
    dismissed: set<Source>, abandoned: set<Source>, written: set<Source>,
    flushed: set<Source>, published: set<Source>, early: set<Source>)
  {
    /** What became of records that a sink held for a while. */
    function Held(): set<Source> { flushed + published + early }

    function All(): set<Source> { dismissed + abandoned + written + Held() }
  }

  datatype Whole = Whole(p: Pipe, c: C.State, fates: Fates)

  datatype Act =
    | Move(m: PipelineSpec.Move)
    | Accept(node: C.Node, recs: seq<RecordID>)
    | Abandon(recs: seq<RecordID>)
    | Write(recs: seq<RecordID>)
    | Commit(step: C.Step)
    | Store(ok: bool)
    | CrashAll

  function Begin(committers: seq<C.Node>): Whole { Whole(Start(), C.Start(committers), Fates({}, {}, {}, {}, {}, {})) }

  function Outcomes(recs: seq<RecordID>, d: Disposition): seq<Outcome> {
    seq(|recs|, i requires 0 <= i < |recs| => Outcome(recs[i], d))
  }

  function SettleOp(recs: seq<RecordID>, d: Disposition): Op { DoSettle(Outcomes(recs, d)) }

  /** The node whose records a step of the commit protocol may settle. */
  function NodeOf(step: C.Step): C.Node {
    match step
    case FlushSink(node, _) => node
    case Publish(node, _) => node
    case _ => 0
  }

  /** What a flush or a commit settles. */
  function Settled(c: C.State, step: C.Step): seq<RecordID>
    requires C.Enabled(c, step)
  {
    match step
    case FlushSink(node, flush) =>
      if flush.FlushFailed? then [] else C.Durable(C.Get(c.deferred, node), flush.NotDurable(), true)
    case Publish(node, published) =>
      var confirmed := E.Confirms(c, node, published);
      if confirmed == [] then [] else C.Released(c.awaiting, C.High(c.id, confirmed), node)
    case _ => []
  }

  function OriginsOf(p: Pipe, recs: set<RecordID>): set<Source> {
    set r | r in recs && r in p.origin :: p.origin[r]
  }

  /** The fates after a step of the commit protocol, by what the sink said. */
  function Fated(s: Whole, step: C.Step): Fates
    requires C.Enabled(s.c, step)
  {
    match step
    case FlushSink(_, _) =>
      s.fates.(flushed := s.fates.flushed + OriginsOf(s.p, set r | r in Settled(s.c, step)))
    case Publish(node, published) =>
      var confirmed := E.Confirms(s.c, node, published);
      s.fates.(
        published := s.fates.published + OriginsOf(s.p, E.PublishedNow(s.c.awaiting, node, confirmed)),
        early := s.fates.early + OriginsOf(s.p, E.EarlyNow(s.c.awaiting, node, confirmed)))
    case _ => s.fates
  }

  /** No sink has taken the record in this run. */
  ghost predicate Untaken(c: C.State, r: RecordID) {
    forall node: C.Node :: Count(C.Get(c.accepted, node), r) == 0
  }

  /**
   A sink takes records that are in flight, each once. A record that was abandoned or written at once
   was not taken. Settling is left to these steps.
   */
  ghost predicate Possible(s: Whole, a: Act) {
    match a
    case Move(m) => Enabled(s.p, m) && !m.Persist? && !m.Crash? && (m.Call? ==> !m.op.DoSettle?)
    case Accept(_, recs) => forall r :: Count(recs, r) <= 1 && (r in recs ==> r in s.p.led.byRec && Untaken(s.c, r))
    case Abandon(recs) => forall r :: r in recs ==> Untaken(s.c, r)
    case Write(recs) => forall r :: r in recs ==> Untaken(s.c, r)
    case Commit(step) => C.Enabled(s.c, step) && !step.Accept? && !step.Persist? && !step.Crash?
    case Store(_) => s.p.phase.Offered? && s.c.phase.Staged?
    case CrashAll => true
  }

  function Perform(s: Whole, a: Act): Whole
    requires Possible(s, a)
  {
    match a
    case Move(m) =>
      var p := After(s.p, m);
      s.(p := p, fates := s.fates.(dismissed := s.fates.dismissed + (p.terminal - s.p.terminal)))
    case Accept(node, recs) => s.(c := C.Next(s.c, C.Accept(node, recs)))
    case Abandon(recs) =>
      var op := SettleOp(recs, Abandoned);
      s.(p := DoCall(s.p, op), fates := s.fates.(abandoned := s.fates.abandoned + Concluded(s.p, op)))
    case Write(recs) =>
      var op := SettleOp(recs, Delivered);
      s.(p := DoCall(s.p, op), fates := s.fates.(written := s.fates.written + Concluded(s.p, op)))
    case Commit(step) =>
      var op := SettleOp(Settled(s.c, step), Delivered);
      s.(c := C.Next(s.c, step), p := DoCall(s.p, op), fates := Fated(s, step))
    case Store(ok) =>
      s.(c := C.Next(s.c, C.Persist(ok)), p := if ok then DoPersist(s.p) else s.p.(phase := Idle))
    case CrashAll => s.(p := DoCrash(s.p), c := C.Next(s.c, C.Crash))
  }

  ghost predicate AllPossible(s: Whole, acts: seq<Act>)
    decreases |acts|, 0
  {
    acts == [] || (AllPossible(s, acts[..|acts| - 1]) && Possible(Acts(s, acts[..|acts| - 1]), acts[|acts| - 1]))
  }

  ghost function Acts(s: Whole, acts: seq<Act>): Whole
    requires AllPossible(s, acts)
    decreases |acts|, 1
  {
    if acts == [] then s else Perform(Acts(s, acts[..|acts| - 1]), acts[|acts| - 1])
  }

  // ---- where an undecided record is ---------------------------------------------------------------------

  /** The record waits in the k-th admission of the lane. */
  predicate WaitsAt(led: State, r: RecordID, id: LaneID, k: nat) {
    && id in led.lanes && k < |led.lanes[id].history.admissions|
    && led.lanes[id].history.admissions[k].kind.Carried?
    && r in led.lanes[id].history.admissions[k].left
  }

  ghost predicate InFlight(led: State, r: RecordID) {
    exists id: LaneID, k: nat :: WaitsAt(led, r, id, k)
  }

  /** A sink has the record, and nothing has settled it. */
  predicate Held(c: C.State, node: C.Node, r: RecordID) {
    Count(C.Get(c.accepted, node), r) > Count(C.Get(c.settled, node), r)
  }

  ghost predicate HeldInFlight(s: Whole) {
    forall node: C.Node, r: RecordID :: Held(s.c, node, r) ==> InFlight(s.p.led, r)
  }

  /** A record was taken by one sink, once. */
  ghost predicate TakenOnce(c: C.State) {
    && (forall node: C.Node, r: RecordID :: Count(C.Get(c.accepted, node), r) <= 1)
    && (forall m: C.Node, n: C.Node, r: RecordID ::
          Count(C.Get(c.accepted, m), r) > 0 && Count(C.Get(c.accepted, n), r) > 0 ==> m == n)
  }

  /** A record that waits in an admission came from the range of that admission. */
  predicate PlacedAt(r: Reading, id: LaneID, k: nat, left: set<RecordID>, origin: map<RecordID, Source>)
    requires k < |r.uptos|
  {
    forall x :: x in left ==> x in origin && origin[x].lane == id && Low(r, k) < origin[x].offset <= r.uptos[k]
  }

  predicate LanePlaced(r: Reading, st: Lane, id: LaneID, origin: map<RecordID, Source>) {
    && |r.uptos| == |st.history.admissions|
    && forall k: nat {:trigger st.history.admissions[k]} :: k < |r.uptos| && st.history.admissions[k].kind.Carried? ==>
         PlacedAt(r, id, k, st.history.admissions[k].left, origin)
  }

  predicate Placed(p: Pipe) {
    forall id :: id in p.led.lanes ==> id in p.readings && LanePlaced(p.readings[id], p.led.lanes[id], id, p.origin)
  }

  /** A record settled for a sink was flushed, published or settled early. */
  predicate SettledAt(p: Pipe, fates: Fates, r: RecordID) {
    r in p.origin && p.origin[r] in fates.Held()
  }

  ghost predicate AllSettledAt(s: Whole) {
    forall node: C.Node, r: RecordID :: r in C.Get(s.c.settled, node) ==> SettledAt(s.p, s.fates, r)
  }

  ghost predicate WholeInv(s: Whole) {
    && PipeInv(s.p) && CI.Inv(s.c)
    && Placed(s.p) && HeldInFlight(s) && TakenOnce(s.c)
    && s.p.terminal <= s.fates.All() && AllSettledAt(s)
  }

  // ---- records stay where they are until their outcome ----------------------------------------------------

  lemma WaitsOnAt(led: State, op: Op, r: RecordID)
    requires Inv(led) && InFlight(led, r) && r !in Gone(op)
    ensures InFlight(Step(led, op), r)
  {
    var id: LaneID, k: nat :| WaitsAt(led, r, id, k);
    assert LaneOK(led.lanes[id]);
    StepGrows(led, op, id);
    assert GrowsAt(led.lanes[id], Step(led, op).lanes[id], Gone(op), k);
    assert WaitsAt(Step(led, op), r, id, k);
  }

  lemma AdmitWaits(led: State, b: Batch, r: RecordID)
    requires Inv(led) && InFlight(led, r)
    ensures InFlight(Admit(led, b).0, r)
  {
    WaitsOnAt(led, DoAdmit(b), r);
  }

  /** A record in flight waits in its group's admission. */
  lemma RecordWaits(led: State, r: RecordID)
    requires Inv(led) && r in led.byRec
    ensures InFlight(led, r)
  {
    var g := led.groups[led.byRec[r]];
    assert WaitsAt(led, r, g.lane, g.ticket);
  }

  /** What a lane lost to outcomes it does not need to place; what joined it is placed by its batch. */
  lemma PlacedOn(r: Reading, r': Reading, st: Lane, t: Lane, id: LaneID, gone: set<RecordID>,
                 origin: map<RecordID, Source>, after: map<RecordID, Source>, n: nat)
    requires LanePlaced(r, st, id, origin) && ReadsOn(r, r') && Grows(st, t, gone)
    requires |r'.uptos| == |t.history.admissions| && n == |r.uptos|
    requires forall x :: x in origin ==> x in after && after[x] == origin[x]
    requires forall k: nat {:trigger t.history.admissions[k]} ::
               n <= k < |r'.uptos| && t.history.admissions[k].kind.Carried? ==>
                 PlacedAt(r', id, k, t.history.admissions[k].left, after)
    ensures LanePlaced(r', t, id, after)
  {
    forall k: nat | k < |r'.uptos| && t.history.admissions[k].kind.Carried?
      ensures PlacedAt(r', id, k, t.history.admissions[k].left, after)
    {
      if k < n {
        assert GrowsAt(st, t, gone, k);
        assert Low(r', k) == Low(r, k) && r'.uptos[k] == r.uptos[k];
        assert PlacedAt(r, id, k, st.history.admissions[k].left, origin);
      }
    }
  }

  // ---- moves of the pipeline -----------------------------------------------------------------------------

  /** What of a reading placing depends on. */
  lemma PlacedSame(r: Reading, r': Reading, st: Lane, t: Lane, id: LaneID, origin: map<RecordID, Source>)
    requires LanePlaced(r, st, id, origin) && r'.base == r.base && r'.uptos == r.uptos
    requires t.history.admissions == st.history.admissions
    ensures LanePlaced(r', t, id, origin)
  {
    forall k: nat | k < |r'.uptos| && t.history.admissions[k].kind.Carried?
      ensures PlacedAt(r', id, k, t.history.admissions[k].left, origin)
    {
      assert PlacedAt(r, id, k, st.history.admissions[k].left, origin);
    }
  }

  lemma CallPlaced(p: Pipe, op: Op, p': Pipe)
    requires Inv(p.led) && Placed(p) && !op.DoAdmit? && !op.DoRegister?
    requires p'.led == Step(p.led, op) && p'.readings == p.readings && p'.origin == p.origin
    ensures Placed(p')
  {
    F.StepLanes(p.led, op);
    forall id | id in p'.led.lanes
      ensures id in p'.readings && LanePlaced(p'.readings[id], p'.led.lanes[id], id, p'.origin)
    {
      assert LaneOK(p.led.lanes[id]);
      StepGrows(p.led, op, id);
      CallLength(p.led, op, id);
      PlacedOn(p.readings[id], p.readings[id], p.led.lanes[id], p'.led.lanes[id], id, Gone(op),
               p.origin, p.origin, |p.readings[id].uptos|);
    }
  }

  /** The batch's own admission. */
  lemma OwnPlaced(r: Reading, m: Made, id: LaneID, decided: set<Source>, left: set<RecordID>,
                  origin: map<RecordID, Source>)
    requires HandOK(m, id, m.upto, decided) && GapOK(r, m.from, id, decided) && left == Ids(m.batch.records)
    requires forall x :: x in m.offsets ==> x in origin && origin[x] == Source(id, m.offsets[x])
    ensures PlacedAt(r.(uptos := r.uptos + [m.upto]), id, |r.uptos|, left, origin)
  {
    assert Low(r.(uptos := r.uptos + [m.upto]), |r.uptos|) == ReadTo(r);
  }

  lemma TookPlacedAt(r: Reading, m: Made, st: Lane, t: Lane, id: LaneID, kind: Kind, pos: Position,
                     decided: set<Source>,
                     origin: map<RecordID, Source>, after: map<RecordID, Source>)
    requires LanePlaced(r, st, id, origin) && |st.log| == |st.history.admissions|
    requires Taken(st, t, pos, kind, Ids(m.batch.records)) && HandOK(m, id, m.upto, decided) &&
             GapOK(r, m.from, id, decided)
    requires forall x :: x in origin ==> x in after && after[x] == origin[x]
    requires forall x :: x in m.offsets ==> x in after && after[x] == Source(id, m.offsets[x])
    ensures LanePlaced(r.(uptos := r.uptos + [m.upto]), t, id, after)
  {
    TakenGrows(st, t, pos, kind, Ids(m.batch.records));
    OwnPlaced(r, m, id, decided, t.history.admissions[|st.log|].left, after);
    PlacedOn(r, r.(uptos := r.uptos + [m.upto]), st, t, id, {}, origin, after, |r.uptos|);
  }

  lemma TookOwnPlaced(p: Pipe, id: LaneID, led: State, e: Option<Error>)
    requires Inv(p.led) && Presentable(p, id) && SourceOK(p, id) && (led, e) == Admit(p.led, p.hands[id].batch)
    requires KindOf(p.hands[id].batch, e).Some? && LanePlaced(p.readings[id], p.led.lanes[id], id, p.origin)
    ensures var p' := Took(p, id, led, e);
            id in led.lanes && id in p'.readings && LanePlaced(p'.readings[id], led.lanes[id], id, p'.origin)
  {
    var m := p.hands[id];
    AdmitTakes(p.led, m.batch);
    assert LaneOK(p.led.lanes[id]);
    TookPlacedAt(p.readings[id], m, p.led.lanes[id], led.lanes[id], id, KindOf(m.batch, e).value, Stamp(p.led, m.batch),
                 Decided(p), p.origin, Took(p, id, led, e).origin);
  }

  lemma TookPlaced(p: Pipe, at: LaneID)
    requires Inv(p.led) && Placed(p) && Presentable(p, at) && SourceOK(p, at)
    requires KindOf(p.hands[at].batch, Admit(p.led, p.hands[at].batch).1).Some?
    ensures Placed(DoPresent(p, at))
  {
    var (led, e) := Admit(p.led, p.hands[at].batch);
    var p' := Took(p, at, led, e);
    AdmitTakes(p.led, p.hands[at].batch);
    TookOwnPlaced(p, at, led, e);
    forall id | id in led.lanes
      ensures id in p'.readings && LanePlaced(p'.readings[id], led.lanes[id], id, p'.origin)
    {
      if id != at {
        assert LaneOK(p.led.lanes[id]);
        SameGrows(p.led.lanes[id], p.led.lanes[id], {});
        PlacedOn(p.readings[id], p.readings[id], p.led.lanes[id], led.lanes[id], id, {}, p.origin, p'.origin,
                 |p.readings[id].uptos|);
      }
    }
  }

  lemma RefusedPlaced(p: Pipe, at: LaneID)
    requires Inv(p.led) && Placed(p) && Presentable(p, at)
    requires KindOf(p.hands[at].batch, Admit(p.led, p.hands[at].batch).1).None?
    ensures Placed(DoPresent(p, at))
  {
    var led := Admit(p.led, p.hands[at].batch).0;
    AdmitTakes(p.led, p.hands[at].batch);
    forall id | id in led.lanes
      ensures id in p.readings && LanePlaced(p.readings[id], led.lanes[id], id, p.origin)
    {
      PlacedSame(p.readings[id], p.readings[id], p.led.lanes[id], led.lanes[id], id, p.origin);
    }
  }

  lemma TakePlaced(p: Pipe)
    requires Placed(p)
    ensures Placed(DoTake(p))
  {
    var p' := DoTake(p);
    forall id | id in p'.led.lanes
      ensures id in p'.readings && LanePlaced(p'.readings[id], p'.led.lanes[id], id, p'.origin)
    {
      TakeFields(p, id);
      PlacedSame(p.readings[id], p'.readings[id], p.led.lanes[id], p'.led.lanes[id], id, p.origin);
    }
  }

  lemma JoinPlaced(p: Pipe, id: LaneID, ordering: Ordering, budget: nat, whenFull: WhenFull, dflt: nat)
    requires Placed(p)
    ensures Placed(Join(p, id, ordering, budget, whenFull, dflt))
  {
    if id !in p.led.lanes {
      JoinFields(p, id, ordering, budget, whenFull, dflt);
    }
  }

  lemma OutsidePlaced(p: Pipe, m: PipelineSpec.Move)
    requires Placed(p) && Enabled(p, m) && Outside(m)
    ensures Placed(After(p, m))
  {
    OutsideFields(p, m);
  }

  lemma OutsideFields(p: Pipe, m: PipelineSpec.Move)
    requires Enabled(p, m) && Outside(m)
    ensures var p' := After(p, m); p'.led == p.led && p'.readings == p.readings && p'.origin == p.origin
  {}

  lemma MovePlaced(p: Pipe, m: PipelineSpec.Move)
    requires PipeInv(p) && Placed(p) && Enabled(p, m) && !m.Crash?
    ensures Placed(After(p, m))
  {
    if Outside(m) {
      OutsidePlaced(p, m);
    } else {
      match m
      case Register(id, ordering, budget, whenFull, dflt) => JoinPlaced(p, id, ordering, budget, whenFull, dflt);
      case Present(id) => PresentPlaced(p, id);
      case Call(op) => CallPlaced(p, op, DoCall(p, op));
      case Take => TakePlaced(p);
      case Confirm(order) => CallPlaced(p, DoCommitted(p.phase.m, order), DoConfirm(p, order));
    }
  }

  lemma PresentPlaced(p: Pipe, id: LaneID)
    requires Inv(p.led) && Placed(p) && Presentable(p, id) && Around(p)
    ensures Placed(DoPresent(p, id))
  {
    assert SourceOK(p, id);
    if KindOf(p.hands[id].batch, Admit(p.led, p.hands[id].batch).1).Some? {
      TookPlaced(p, id);
    } else {
      RefusedPlaced(p, id);
    }
  }

  /** What a move of the pipeline does to the ledger, as calls of it. */
  lemma MoveLedger(p: Pipe, m: PipelineSpec.Move)
    requires Enabled(p, m) && !Outside(m) && !m.Crash?
    ensures var led := After(p, m).led;
            || led == p.led
            || (m.Register? && led == Step(p.led, DoRegister(m.lane, m.ordering, m.budget, m.whenFull, m.dflt)))
            || (m.Present? && led == Admit(p.led, p.hands[m.lane].batch).0)
            || (m.Call? && led == Step(p.led, m.op))
            || (m.Take? && led == Step(p.led, DoFlushable))
            || (m.Confirm? && led == Step(p.led, DoCommitted(p.phase.m, m.order)))
  {}

  lemma MoveInFlight(p: Pipe, m: PipelineSpec.Move, r: RecordID)
    requires Inv(p.led) && Enabled(p, m) && !m.Crash? && (m.Call? ==> !m.op.DoSettle?) && InFlight(p.led, r)
    ensures InFlight(After(p, m).led, r)
  {
    if Outside(m) {
      OutsideFields(p, m);
    } else {
      MoveLedger(p, m);
      match m
      case Register(id, ordering, budget, whenFull, dflt) =>
        WaitsOnAt(p.led, DoRegister(id, ordering, budget, whenFull, dflt), r);
      case Present(id) => AdmitWaits(p.led, p.hands[id].batch, r);
      case Call(op) => WaitsOnAt(p.led, op, r);
      case Take => WaitsOnAt(p.led, DoFlushable, r);
      case Confirm(order) => WaitsOnAt(p.led, DoCommitted(p.phase.m, order), r);
    }
  }

  // ---- settling --------------------------------------------------------------------------------------------

  lemma GoneOutcomes(recs: seq<RecordID>, d: Disposition)
    ensures Gone(SettleOp(recs, d)) == set r | r in recs
  {
    var outs := Outcomes(recs, d);
    forall r | r in recs
      ensures r in Gone(SettleOp(recs, d))
    {
      var i :| 0 <= i < |recs| && recs[i] == r;
      assert outs[i] in outs && outs[i].record == r;
    }
  }

  /** What a step of the commit protocol settles, it settles for one node, and takes nothing in. */
  predicate SettlesFor(c: C.State, c': C.State, node: C.Node, now: seq<RecordID>) {
    c'.accepted == c.accepted && c'.settled == C.Hold(c.settled, node, now)
  }

  lemma FlushFields(c: C.State, node: C.Node, flush: C.Flushed)
    ensures SettlesFor(c, C.DoFlush(c, node, flush), node,
                       if flush.FlushFailed? then [] else C.Durable(C.Get(c.deferred, node), flush.NotDurable(), true))
  {}

  lemma ConcludeFields(c: C.State, node: C.Node, confirmed: seq<C.Committable>)
    ensures SettlesFor(c, C.Conclude(c, node, confirmed), node,
                       if confirmed == [] then [] else C.Released(c.awaiting, C.High(c.id, confirmed), node))
  {}

  /** The sink has answered, and nothing of the answer has been acted on. */
  function Answered(c: C.State, node: C.Node): (c1: C.State)
    requires c.phase.Publishing?
    ensures c1.accepted == c.accepted && c1.settled == c.settled && c1.awaiting == c.awaiting && c1.id == c.id
  {
    c.(phase := c.phase.(nodes := c.phase.nodes - {node}))
  }

  lemma PublishFields(c: C.State, step: C.Step)
    requires C.Enabled(c, step) && step.Publish?
    ensures SettlesFor(c, C.DoPublish(c, step.node, step.published), step.node, Settled(c, step))
  {
    var sent := C.Of(c.phase.offer, step.node);
    if step.published.CommitFailed? || C.Stops(sent, C.Answers(step.published.outs)) {
      assert C.DoPublish(c, step.node, step.published) == c.(phase := C.Idle);
    } else {
      var c1, confirmed := Answered(c, step.node), E.Confirms(c, step.node, step.published);
      assert C.DoPublish(c, step.node, step.published) == C.Conclude(c1, step.node, confirmed);
      ConcludeFields(c1, step.node, confirmed);
    }
  }

  lemma PrepareFields(c: C.State, prepared: C.Prepared)
    requires c.phase.Preparing? && c.phase.todo != []
    ensures SettlesFor(c, C.DoPrepare(c, prepared), 0, [])
  {}

  lemma CommitFields(c: C.State, step: C.Step)
    requires C.Enabled(c, step) && !step.Accept? && !step.Crash?
    ensures SettlesFor(c, C.Next(c, step), NodeOf(step), Settled(c, step))
  {
    match step
    case FlushSink(node, flush) => FlushFields(c, node, flush);
    case Publish(node, published) => PublishFields(c, step);
    case Prepare(prepared) => PrepareFields(c, prepared);
    case _ =>
  }

  /** A record settled now is held no longer, by anyone; whatever is held now was held before. */
  lemma CommitHeld(c: C.State, step: C.Step, node: C.Node, r: RecordID)
    requires C.Enabled(c, step) && !step.Accept? && !step.Crash? && TakenOnce(c)
    requires CI.Partitioned(C.Next(c, step), NodeOf(step), r) && Held(C.Next(c, step), node, r)
    ensures Held(c, node, r) && r !in Settled(c, step)
  {
    var at, now := NodeOf(step), Settled(c, step);
    CommitFields(c, step);
    CI.HoldCount(c.settled, at, now, node, r);
    CI.HoldCount(c.settled, at, now, at, r);
    CountIn(now, r);
  }

  lemma CommitInFlight(s: Whole, step: C.Step, node: C.Node, r: RecordID)
    requires Inv(s.p.led) && CI.Inv(s.c) && HeldInFlight(s) && TakenOnce(s.c)
    requires C.Enabled(s.c, step) && !step.Accept? && !step.Crash?
    requires Held(C.Next(s.c, step), node, r)
    ensures InFlight(Step(s.p.led, SettleOp(Settled(s.c, step), Delivered)), r)
  {
    CI.NextKeeps(s.c, step);
    assert CI.Partitioned(C.Next(s.c, step), NodeOf(step), r);
    CommitHeld(s.c, step, node, r);
    GoneOutcomes(Settled(s.c, step), Delivered);
    WaitsOnAt(s.p.led, SettleOp(Settled(s.c, step), Delivered), r);
  }

  /** A record no sink has taken may be settled without them. */
  lemma UntakenInFlight(s: Whole, recs: seq<RecordID>, d: Disposition, node: C.Node, r: RecordID)
    requires Inv(s.p.led) && HeldInFlight(s) && Held(s.c, node, r)
    requires forall x :: x in recs ==> Untaken(s.c, x)
    ensures InFlight(Step(s.p.led, SettleOp(recs, d)), r)
  {
    GoneOutcomes(recs, d);
    assert r !in recs;
    WaitsOnAt(s.p.led, SettleOp(recs, d), r);
  }

  lemma AcceptFields(c: C.State, node: C.Node, recs: seq<RecordID>)
    ensures var c' := C.Next(c, C.Accept(node, recs));
            c'.accepted == C.Hold(c.accepted, node, recs) && c'.settled == c.settled
  {}

  lemma AcceptCount(c: C.State, at: C.Node, recs: seq<RecordID>, node: C.Node, r: RecordID)
    requires Count(recs, r) <= 1 && (r in recs ==> Untaken(c, r))
    ensures var now := Count(C.Get(C.Next(c, C.Accept(at, recs)).accepted, node), r);
            var before := Count(C.Get(c.accepted, node), r);
            if Count(recs, r) == 0 then now == before else before == 0 && now == if node == at then 1 else 0
  {
    AcceptFields(c, at, recs);
    CI.HoldCount(c.accepted, at, recs, node, r);
    CountIn(recs, r);
  }

  lemma AcceptTaken(c: C.State, at: C.Node, recs: seq<RecordID>)
    requires TakenOnce(c) && forall r :: Count(recs, r) <= 1 && (r in recs ==> Untaken(c, r))
    ensures TakenOnce(C.Next(c, C.Accept(at, recs)))
  {
    var c' := C.Next(c, C.Accept(at, recs));
    forall node: C.Node, r: RecordID
      ensures Count(C.Get(c'.accepted, node), r) <= 1
    {
      AcceptCount(c, at, recs, node, r);
    }
    forall m: C.Node, n: C.Node, r: RecordID
      | Count(C.Get(c'.accepted, m), r) > 0 && Count(C.Get(c'.accepted, n), r) > 0
      ensures m == n
    {
      AcceptCount(c, at, recs, m, r);
      AcceptCount(c, at, recs, n, r);
    }
  }

  lemma AcceptInFlight(s: Whole, at: C.Node, recs: seq<RecordID>, node: C.Node, r: RecordID)
    requires Inv(s.p.led) && HeldInFlight(s) && Held(C.Next(s.c, C.Accept(at, recs)), node, r)
    requires forall x :: x in recs ==> x in s.p.led.byRec
    ensures InFlight(s.p.led, r)
  {
    AcceptFields(s.c, at, recs);
    CI.HoldCount(s.c.accepted, at, recs, node, r);
    CountIn(recs, r);
    if r in recs {
      RecordWaits(s.p.led, r);
    } else {
      assert Held(s.c, node, r);
    }
  }

  // ---- what a commit settles has a fate -----------------------------------------------------------------------

  lemma SettledFate(s: Whole, step: C.Step, r: RecordID)
    requires C.Enabled(s.c, step) && CI.IdsOK(s.c) && r in Settled(s.c, step) && r in s.p.origin
    ensures s.p.origin[r] in Fated(s, step).Held()
  {
    if step.Publish? {
      E.SettledSplits(s.c, step.node, E.Confirms(s.c, step.node, step.published), r);
    }
  }

  lemma ConcludedFates(s: Whole, step: C.Step)
    requires C.Enabled(s.c, step) && CI.IdsOK(s.c)
    ensures Concluded(s.p, SettleOp(Settled(s.c, step), Delivered)) <= Fated(s, step).Held()
    ensures s.fates.Held() <= Fated(s, step).Held() && s.fates.All() <= Fated(s, step).All()
  {
    GoneOutcomes(Settled(s.c, step), Delivered);
    forall r | r in Settled(s.c, step) && r in s.p.origin
      ensures s.p.origin[r] in Fated(s, step).Held()
    {
      SettledFate(s, step, r);
    }
  }

  /** What a sink held comes from upstream. */
  lemma HeldOrigin(s: Whole, node: C.Node, r: RecordID)
    requires PipeInv(s.p) && Placed(s.p) && HeldInFlight(s) && Held(s.c, node, r)
    ensures r in s.p.origin
  {
    var id: LaneID, k: nat :| WaitsAt(s.p.led, r, id, k);
    WaitsBeyond(s.p, r, id, k);
  }

  /** Whatever a step settles the sink held. */
  lemma SettledHeld(c: C.State, step: C.Step, r: RecordID)
    requires C.Enabled(c, step) && !step.Accept? && !step.Crash?
    requires CI.Partitioned(C.Next(c, step), NodeOf(step), r) && r in Settled(c, step)
    ensures Held(c, NodeOf(step), r)
  {
    var at, now := NodeOf(step), Settled(c, step);
    CommitFields(c, step);
    CI.HoldCount(c.settled, at, now, at, r);
    CountIn(now, r);
  }

  lemma CommitSettledAt(s: Whole, step: C.Step)
    requires WholeInv(s) && Possible(s, Commit(step))
    ensures AllSettledAt(Perform(s, Commit(step)))
  {
    var s', at, now := Perform(s, Commit(step)), NodeOf(step), Settled(s.c, step);
    CommitFields(s.c, step);
    ConcludedFates(s, step);
    CI.NextKeeps(s.c, step);
    forall node: C.Node, r: RecordID | r in C.Get(s'.c.settled, node)
      ensures SettledAt(s'.p, s'.fates, r)
    {
      if r in C.Get(s.c.settled, node) {
        assert SettledAt(s.p, s.fates, r);
      } else {
        assert CI.Partitioned(s'.c, at, r);
        SettledHeld(s.c, step, r);
        HeldOrigin(s, at, r);
        SettledFate(s, step, r);
      }
    }
  }

  /** No move of the pipeline forgets where a record came from. */
  lemma MoveOrigin(p: Pipe, m: PipelineSpec.Move, r: RecordID)
    requires Enabled(p, m) && !m.Crash? && r in p.origin
    ensures r in After(p, m).origin && After(p, m).origin[r] == p.origin[r]
  {}

  /** Settled records keep their fates while no origin is forgotten. */
  lemma SettledOn(s: Whole, s': Whole)
    requires AllSettledAt(s) && s'.c.settled == s.c.settled && s.fates.Held() <= s'.fates.Held()
    requires forall r :: r in s.p.origin ==> r in s'.p.origin && s'.p.origin[r] == s.p.origin[r]
    ensures AllSettledAt(s')
  {
    forall node: C.Node, r: RecordID | r in C.Get(s'.c.settled, node)
      ensures SettledAt(s'.p, s'.fates, r)
    {
      assert SettledAt(s.p, s.fates, r);
    }
  }

  lemma MoveSettledAt(s: Whole, m: PipelineSpec.Move)
    requires AllSettledAt(s) && Possible(s, Move(m))
    ensures AllSettledAt(Perform(s, Move(m)))
  {
    forall r | r in s.p.origin
      ensures r in After(s.p, m).origin && After(s.p, m).origin[r] == s.p.origin[r]
    {
      MoveOrigin(s.p, m, r);
    }
    SettledOn(s, Perform(s, Move(m)));
  }

  // ---- every act keeps it -----------------------------------------------------------------------------------

  lemma MoveWhole(s: Whole, m: PipelineSpec.Move)
    requires WholeInv(s) && Possible(s, Move(m))
    ensures WholeInv(Perform(s, Move(m)))
  {
    MoveKeeps(s.p, m);
    MovePlaced(s.p, m);
    forall node: C.Node, r: RecordID | Held(s.c, node, r)
      ensures InFlight(After(s.p, m).led, r)
    {
      MoveInFlight(s.p, m, r);
    }
    MoveSettledAt(s, m);
  }

  lemma AcceptWhole(s: Whole, node: C.Node, recs: seq<RecordID>)
    requires WholeInv(s) && Possible(s, Accept(node, recs))
    ensures WholeInv(Perform(s, Accept(node, recs)))
  {
    CI.NextKeeps(s.c, C.Accept(node, recs));
    AcceptTaken(s.c, node, recs);
    forall n: C.Node, r: RecordID | Held(C.Next(s.c, C.Accept(node, recs)), n, r)
      ensures InFlight(s.p.led, r)
    {
      AcceptInFlight(s, node, recs, n, r);
    }
  }

  lemma SettleWhole(s: Whole, recs: seq<RecordID>, d: Disposition)
    requires WholeInv(s) && forall x :: x in recs ==> Untaken(s.c, x)
    ensures var op := SettleOp(recs, d);
            && PipeInv(DoCall(s.p, op)) && Placed(DoCall(s.p, op))
            && HeldInFlight(s.(p := DoCall(s.p, op)))
            && DoCall(s.p, op).origin == s.p.origin
            && DoCall(s.p, op).terminal == s.p.terminal + Concluded(s.p, op)
  {
    var op := SettleOp(recs, d);
    CallKeeps(s.p, op);
    CallPlaced(s.p, op, DoCall(s.p, op));
    forall node: C.Node, r: RecordID | Held(s.c, node, r)
      ensures InFlight(DoCall(s.p, op).led, r)
    {
      UntakenInFlight(s, recs, d, node, r);
    }
  }

  lemma CommitWhole(s: Whole, step: C.Step)
    requires WholeInv(s) && Possible(s, Commit(step))
    ensures WholeInv(Perform(s, Commit(step)))
  {
    var op := SettleOp(Settled(s.c, step), Delivered);
    CI.NextKeeps(s.c, step);
    CommitFields(s.c, step);
    CallKeeps(s.p, op);
    CallPlaced(s.p, op, DoCall(s.p, op));
    ConcludedFates(s, step);
    CommitSettledAt(s, step);
    forall node: C.Node, r: RecordID | Held(C.Next(s.c, step), node, r)
      ensures InFlight(DoCall(s.p, op).led, r)
    {
      CommitInFlight(s, step, node, r);
    }
  }

  lemma PersistFields(c: C.State, ok: bool)
    requires c.phase.Staged?
    ensures var c' := C.Next(c, C.Persist(ok)); c'.accepted == c.accepted && c'.settled == c.settled
  {}

  lemma StoreWhole(s: Whole, ok: bool)
    requires WholeInv(s) && Possible(s, Store(ok))
    ensures WholeInv(Perform(s, Store(ok)))
  {
    var m := if ok then Persist else GiveUp;
    MoveKeeps(s.p, m);
    OutsideFields(s.p, m);
    OutsidePlaced(s.p, m);
    CI.NextKeeps(s.c, C.Persist(ok));
    PersistFields(s.c, ok);
    SettledOn(s, Perform(s, Store(ok)));
    forall node: C.Node, r: RecordID | Held(C.Next(s.c, C.Persist(ok)), node, r)
      ensures InFlight(s.p.led, r)
    {
      assert Held(s.c, node, r);
    }
  }

  lemma CrashWhole(s: Whole)
    requires WholeInv(s)
    ensures WholeInv(Perform(s, CrashAll))
  {
    CrashKeeps(s.p);
    CI.NextKeeps(s.c, C.Crash);
  }

  lemma ActKeeps(s: Whole, a: Act)
    requires WholeInv(s) && Possible(s, a)
    ensures WholeInv(Perform(s, a))
  {
    match a
    case Move(m) => MoveWhole(s, m);
    case Accept(node, recs) => AcceptWhole(s, node, recs);
    case Abandon(recs) =>
      SettleWhole(s, recs, Abandoned);
      SettledOn(s, Perform(s, a));
    case Write(recs) =>
      SettleWhole(s, recs, Delivered);
      SettledOn(s, Perform(s, a));
    case Commit(step) => CommitWhole(s, step);
    case Store(ok) => StoreWhole(s, ok);
    case CrashAll => CrashWhole(s);
  }

  lemma BeginInv(committers: seq<C.Node>)
    ensures WholeInv(Begin(committers))
  {
    StartInv();
    CI.StartInv(committers);
  }

  lemma {:induction false} ActsKeep(s: Whole, acts: seq<Act>)
    requires WholeInv(s) && AllPossible(s, acts)
    ensures WholeInv(Acts(s, acts))
  {
    if acts == [] {
    } else {
      ActsKeep(s, acts[..|acts| - 1]);
      ActKeeps(Acts(s, acts[..|acts| - 1]), acts[|acts| - 1]);
    }
  }

  // ---- what it means ------------------------------------------------------------------------------------------

  /** A record that waits in an admission lies beyond the stored cursor of its lane. */
  lemma WaitsBeyond(p: Pipe, r: RecordID, id: LaneID, k: nat)
    requires PipeInv(p) && Placed(p) && WaitsAt(p.led, r, id, k)
    ensures r in p.origin && p.origin[r].lane == id && (id in p.cursors ==> p.cursors[id] < p.origin[r].offset)
  {
    var rd, st := p.readings[id], p.led.lanes[id];
    assert Linked(rd, st, id, WorldOf(p)) && LaneOK(st);
    assert PlacedAt(rd, id, k, st.history.admissions[k].left, p.origin);
    T.RunSpec(st.log);
    assert EntryAt(st.log, st.history.admissions, st.seqno, k);
    assert T.Run(st.log) <= k;
    Rising(rd, st, id, WorldOf(p), T.Run(st.log), k);
  }

  /** The record is with a sink: deferred, or the responsibility of a committable. */
  predicate WithSink(c: C.State, node: C.Node, r: RecordID) {
    r in C.Get(c.deferred, node) || exists k :: 0 <= k <= c.id && r in C.At(c.awaiting, k, node)
  }

  lemma {:induction false} AwaitedCount(aw: C.Awaiting, k: nat, upto: nat, node: C.Node, r: RecordID)
    requires k <= upto && r in C.At(aw, k, node)
    ensures Count(C.Released(aw, upto, node), r) > 0
    decreases upto
  {
    CountIn(C.At(aw, k, node), r);
    if upto > 0 {
      CountAppend(C.Released(aw, upto - 1, node), C.At(aw, upto, node), r);
      if k < upto {
        AwaitedCount(aw, k, upto - 1, node, r);
      }
    }
  }

  lemma WithSinkHeld(c: C.State, node: C.Node, r: RecordID)
    requires CI.Partitioned(c, node, r) && WithSink(c, node, r)
    ensures Held(c, node, r)
  {
    CountIn(C.Get(c.deferred, node), r);
    if r !in C.Get(c.deferred, node) {
      var k: nat :| k <= c.id && r in C.At(c.awaiting, k, node);
      AwaitedCount(c.awaiting, k, c.id, node, r);
    }
  }

  /**
   Over every run, with a crash between any two acts: whatever a sink holds, deferred or behind a
   committable, lies beyond the stored cursor of its lane.
   */
  lemma HeldBeyondCursor(committers: seq<C.Node>, acts: seq<Act>, node: C.Node, r: RecordID)
    requires AllPossible(Begin(committers), acts) && WithSink(Acts(Begin(committers), acts).c, node, r)
    ensures Beyond(Acts(Begin(committers), acts).p, r)
  {
    BeginInv(committers);
    ActsKeep(Begin(committers), acts);
    var s := Acts(Begin(committers), acts);
    assert CI.Partitioned(s.c, node, r);
    WithSinkHeld(s.c, node, r);
    HeldBeyond(s, node, r);
  }

  /** A restart reads the record again. */
  predicate Beyond(p: Pipe, r: RecordID) {
    r in p.origin && (p.origin[r].lane in p.cursors ==> p.cursors[p.origin[r].lane] < p.origin[r].offset)
  }

  lemma HeldBeyond(s: Whole, node: C.Node, r: RecordID)
    requires WholeInv(s) && Held(s.c, node, r)
    ensures Beyond(s.p, r)
  {
    var id: LaneID, k: nat :| WaitsAt(s.p.led, r, id, k);
    WaitsBeyond(s.p, r, id, k);
  }

  /**
   Over every run, with a crash between any two acts: a record a sink took in this run lies beyond the
   stored cursor of its lane, unless a flush made it durable, the sink confirmed a committable of its
   checkpoint or a later one, or a commit settled it early. So the cursor stored in one write with a
   committable is behind every record that committable answers for, and a restart reads them again.
   */
  lemma CursorBehindCommittables(committers: seq<C.Node>, acts: seq<Act>, node: C.Node, r: RecordID)
    requires AllPossible(Begin(committers), acts) && r in C.Get(Acts(Begin(committers), acts).c.accepted, node)
    ensures var s := Acts(Begin(committers), acts);
            && r in s.p.origin
            && var x := s.p.origin[r];
               Beyond(s.p, r) || x in s.fates.flushed || x in s.fates.published || x in s.fates.early
  {
    BeginInv(committers);
    ActsKeep(Begin(committers), acts);
    var s := Acts(Begin(committers), acts);
    CountIn(C.Get(s.c.accepted, node), r);
    CountIn(C.Get(s.c.settled, node), r);
    if Held(s.c, node, r) {
      HeldBeyond(s, node, r);
    } else {
      assert SettledAt(s.p, s.fates, r);
    }
  }

  /**
   Over every run, with a crash between any two acts: each record at or before a stored cursor was
   passed over or shed, abandoned, written by a sink, made durable by a flush, behind a checkpoint at or
   below one its sink confirmed, or settled early by the confirmation of another; or else it was produced
   and thrown away before anybody took it in.
   */
  lemma StoredIsDelivered(committers: seq<C.Node>, acts: seq<Act>, id: LaneID, o: int)
    requires AllPossible(Begin(committers), acts)
    requires var p := Acts(Begin(committers), acts).p; id in p.cursors && 0 < o <= p.cursors[id]
    ensures var s := Acts(Begin(committers), acts);
            var x := Source(id, o);
            || x in s.fates.dismissed || x in s.fates.abandoned || x in s.fates.written || x in s.fates.flushed
            || x in s.fates.published || x in s.fates.early || x in s.p.lost
  {
    BeginInv(committers);
    ActsKeep(Begin(committers), acts);
    var s := Acts(Begin(committers), acts);
    assert AllIn(Decided(s.p), id, s.p.cursors[id]);
    assert Source(id, o) in Decided(s.p);
  }
}
