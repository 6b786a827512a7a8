/**
 What every move of a pipeline keeps: nothing at or before a stored cursor is undecided, though
 some of it may be lost.
 */
module Pipeline {
  import opened Wrappers
  import opened Records
  import opened LedgerSpec
  import opened LedgerInv
  import opened LedgerRuns
  import opened PipelineSpec
  import opened PipelineLanes
  import F = LedgerFence
  import O = LedgerOffers

  function Decided(p: Pipe): set<Source> { p.terminal + p.lost }

  // ---- the invariant -----------------------------------------------------------------------------------

  predicate Tables(p: Pipe) {
    p.readings.Keys == p.led.lanes.Keys == p.places.Keys && p.hands.Keys <= p.places.Keys
  }

  ghost predicate AllLinked(p: Pipe) {
    forall id :: id in p.led.lanes ==> id in p.readings && Linked(p.readings[id], p.led.lanes[id], id, WorldOf(p))
  }

  /** Where the source was before the batch in hand, if there is one. */
  function Edge(p: Pipe, id: LaneID): int
    requires id in p.places
  {
    if id in p.hands then p.hands[id].from else p.places[id]
  }

  predicate SourceOK(p: Pipe, id: LaneID) {
    && id in p.readings && id in p.places
    && GapOK(p.readings[id], Edge(p, id), id, Decided(p))
    && (id in p.hands ==> HandOK(p.hands[id], id, p.places[id], Decided(p)))
  }

  predicate SourcesOK(p: Pipe) { forall id :: id in p.places ==> SourceOK(p, id) }

  predicate PhaseOK(p: Pipe) {
    match p.phase
    case Idle => true
    case Offered(m) =>
      forall id :: id in m ==>
        id in p.readings && m[id].token == p.readings[id].mark && AllIn(Decided(p), id, m[id].token)
    case Stored(m) =>
      forall id :: id in m ==> id in p.cursors && p.cursors[id] == m[id].token
  }

  /** The acknowledgement lets the source advance no further than the stored cursor. */
  predicate Behind(a: Ack, cursors: map<LaneID, int>) {
    a.through.Some? ==> a.lane in cursors && a.through.value.token <= cursors[a.lane]
  }

  predicate AcksBehind(acks: seq<Ack>, cursors: map<LaneID, int>) {
    forall j :: 0 <= j < |acks| ==> Behind(acks[j], cursors)
  }

  predicate StoredDecided(p: Pipe) {
    forall id :: id in p.cursors ==> AllIn(Decided(p), id, p.cursors[id])
  }

  /** The part that is not about the ledger alone, nor about its lanes. */
  predicate Around(p: Pipe) {
    Tables(p) && SourcesOK(p) && PhaseOK(p) && AcksBehind(p.led.acks, p.cursors) && NeverAhead(p) && StoredDecided(p)
  }

  ghost predicate PipeInv(p: Pipe) { Inv(p.led) && AllLinked(p) && Around(p) }

  // ---- what more knowledge keeps -----------------------------------------------------------------------

  /** More is decided, and nothing else a predicate below depends on changed. */
  lemma DecidedMore(p: Pipe, p': Pipe)
    requires PhaseOK(p) && StoredDecided(p) && NeverAhead(p) && Decided(p) <= Decided(p')
    requires p'.phase == p.phase && p'.cursors == p.cursors && p'.told == p.told
    requires forall id :: id in p.readings ==> id in p'.readings && p'.readings[id].mark == p.readings[id].mark
    ensures PhaseOK(p') && StoredDecided(p') && NeverAhead(p')
  {}

  lemma SourceMore(p: Pipe, p': Pipe, id: LaneID)
    requires SourceOK(p, id) && Decided(p) <= Decided(p') && id in p'.readings && id in p'.places
    requires ReadTo(p'.readings[id]) == ReadTo(p.readings[id]) && p'.places[id] == p.places[id]
    requires (id in p.hands <==> id in p'.hands) && (id in p.hands ==> p'.hands[id] == p.hands[id])
    ensures SourceOK(p', id)
  {}

  lemma SourcesMore(p: Pipe, p': Pipe)
    requires SourcesOK(p) && Decided(p) <= Decided(p') && p'.places == p.places && p'.hands == p.hands
    requires forall id :: id in p.places ==>
               id in p.readings && id in p'.readings && ReadTo(p'.readings[id]) == ReadTo(p.readings[id])
    ensures SourcesOK(p')
  {
    forall id | id in p'.places
      ensures SourceOK(p', id)
    {
      SourceMore(p, p', id);
    }
  }

  // ---- calls of the ledger -----------------------------------------------------------------------------

  lemma SettleLength(s: State, outs: seq<Outcome>, id: LaneID)
    requires id in s.lanes
    ensures id in Settle(s, outs).lanes && |Settle(s, outs).lanes[id].log| == |s.lanes[id].log|
  {
    SettleAllLength(s, outs, id);
    PublishAllLogs(SettleAll(s, outs).0, SettleAll(s, outs).1);
  }

  lemma {:induction false} SettleAllLength(s: State, outs: seq<Outcome>, id: LaneID)
    requires id in s.lanes
    ensures id in SettleAll(s, outs).0.lanes && |SettleAll(s, outs).0.lanes[id].log| == |s.lanes[id].log|
  {
    if outs == [] {
    } else {
      SettleAllLength(s, outs[..|outs| - 1], id);
    }
  }

  lemma CallLength(s: State, op: Op, id: LaneID)
    requires id in s.lanes && !op.DoAdmit?
    ensures id in Step(s, op).lanes && |Step(s, op).lanes[id].log| == |s.lanes[id].log|
  {
    if op.DoSettle? {
      SettleLength(s, op.outcomes, id);
    } else {
      QuietSame(s, op, id);
    }
  }

  /** A call other than Admit leaves each lane linked, whatever it decided. */
  lemma CallLinked(led: State, op: Op, r: Reading, id: LaneID, w: World, w': World)
    requires Inv(led) && id in led.lanes && Linked(r, led.lanes[id], id, w) && !op.DoAdmit? && Widens(w, w')
    requires forall x :: x in Gone(op) && x in w.origin ==> w.origin[x] in w'.decided
    ensures id in Step(led, op).lanes && Linked(r, Step(led, op).lanes[id], id, w')
  {
    StepGrows(led, op, id);
    O.StepOffer(led, op, id);
    CallLength(led, op, id);
    LaneOn(r, led.lanes[id], Step(led, op).lanes[id], id, w, w', Gone(op));
  }

  lemma CallAllLinked(p: Pipe, op: Op, p': Pipe)
    requires Inv(p.led) && AllLinked(p) && !op.DoAdmit? && !op.DoRegister?
    requires p'.led == Step(p.led, op) && p'.readings == p.readings && Widens(WorldOf(p), WorldOf(p'))
    requires Concluded(p, op) <= Decided(p')
    ensures AllLinked(p') && p'.led.lanes.Keys == p.led.lanes.Keys
  {
    F.StepLanes(p.led, op);
    forall x | x in Gone(op) && x in p.origin
      ensures p.origin[x] in Decided(p')
    {
      assert p.origin[x] in Concluded(p, op);
    }
    forall id | id in p'.led.lanes
      ensures id in p'.readings && Linked(p'.readings[id], p'.led.lanes[id], id, WorldOf(p'))
    {
      CallLinked(p.led, op, p.readings[id], id, WorldOf(p), WorldOf(p'));
    }
  }

  lemma {:induction false} EmitBehind(s: State, order: seq<LaneID>, cursors: map<LaneID, int>)
    requires AcksBehind(s.acks, cursors)
    ensures AcksBehind(EmitDiscrete(s, order).acks, cursors)
  {
    if order == [] {
    } else {
      EmitBehind(s, order[..|order| - 1], cursors);
    }
  }

  lemma {:induction false} CommittedBehind(
    s: State, m: map<LaneID, Position>, order: seq<LaneID>, cursors: map<LaneID, int>)
    requires AcksBehind(s.acks, cursors) && forall id :: id in m ==> id in cursors && m[id].token <= cursors[id]
    ensures AcksBehind(Committed(s, m, order).acks, cursors)
  {
    if order == [] {
    } else {
      CommittedBehind(s, m, order[..|order| - 1], cursors);
    }
  }

  lemma CallBehind(s: State, op: Op, cursors: map<LaneID, int>)
    requires AcksBehind(s.acks, cursors) && !op.DoCommitted?
    ensures AcksBehind(Step(s, op).acks, cursors)
  {
    if op.DoEmit? {
      EmitBehind(s, op.order, cursors);
    } else {
      F.QuietAcks(s, op);
    }
  }

  lemma CallAround(p: Pipe, op: Op, p': Pipe)
    requires Around(p) && p' == DoCall(p, op) && p'.led.lanes.Keys == p.led.lanes.Keys &&
             AcksBehind(p'.led.acks, p.cursors)
    ensures Around(p')
  {
    DecidedMore(p, p');
    SourcesMore(p, p');
  }

  lemma CallKeeps(p: Pipe, op: Op)
    requires PipeInv(p) && Callable(op)
    ensures PipeInv(DoCall(p, op))
  {
    StepKeeps(p.led, op);
    CallBehind(p.led, op, p.cursors);
    CallAllLinked(p, op, DoCall(p, op));
    CallAround(p, op, DoCall(p, op));
  }

  lemma ConfirmAround(p: Pipe, p': Pipe)
    requires Around(p) && p' == p.(phase := Idle, led := p'.led)
    requires p'.led.lanes.Keys == p.led.lanes.Keys && AcksBehind(p'.led.acks, p.cursors)
    ensures Around(p')
  {
    SourcesMore(p, p');
  }

  lemma ConfirmKeeps(p: Pipe, order: seq<LaneID>)
    requires PipeInv(p) && p.phase.Stored?
    ensures PipeInv(DoConfirm(p, order))
  {
    var op := DoCommitted(p.phase.m, order);
    StepKeeps(p.led, op);
    CommittedBehind(p.led, p.phase.m, order, p.cursors);
    CallAllLinked(p, op, DoConfirm(p, order));
    ConfirmAround(p, DoConfirm(p, order));
  }

  // ---- the source --------------------------------------------------------------------------------------

  /** Nothing of the ledger or of what it took in changed, and more may be decided. */
  lemma LinkedMore(p: Pipe, p': Pipe)
    requires AllLinked(p) && p'.led.lanes == p.led.lanes && p'.readings == p.readings && Widens(WorldOf(p), WorldOf(p'))
    ensures AllLinked(p')
  {
    forall id | id in p'.led.lanes
      ensures id in p'.readings && Linked(p'.readings[id], p'.led.lanes[id], id, WorldOf(p'))
    {
      SameOn(p.readings[id], p.led.lanes[id], id, WorldOf(p), WorldOf(p'));
    }
  }

  lemma ProduceSource(p: Pipe, b: Batch, upto: int, offsets: map<RecordID, int>, id: LaneID)
    requires Around(p) && Producible(p, b, upto, offsets) && id in p.places
    ensures SourceOK(DoProduce(p, b, upto, offsets), id)
  {
    var p' := DoProduce(p, b, upto, offsets);
    if id != b.lane {
      SourceMore(p, p', id);
    } else {
      assert SourceOK(p, id);
    }
  }

  lemma ProduceKeeps(p: Pipe, b: Batch, upto: int, offsets: map<RecordID, int>)
    requires AllLinked(p) && Around(p) && Producible(p, b, upto, offsets)
    ensures AllLinked(DoProduce(p, b, upto, offsets)) && Around(DoProduce(p, b, upto, offsets))
  {
    var p' := DoProduce(p, b, upto, offsets);
    DecidedMore(p, p');
    LinkedMore(p, p');
    forall id | id in p'.places
      ensures SourceOK(p', id)
    {
      ProduceSource(p, b, upto, offsets, id);
    }
  }

  /** What the batch carried is decided now too, so the gap reaches to where the source is. */
  lemma GapWidens(r: Reading, m: Made, id: LaneID, decided: set<Source>, after: set<Source>)
    requires GapOK(r, m.from, id, decided) && HandOK(m, id, m.upto, decided)
    requires decided <= after && Sources(id, m.offsets) <= after
    ensures GapOK(r, m.upto, id, after)
  {
    forall x | x in Span(id, ReadTo(r), m.upto)
      ensures x in after
    {
      if x !in Span(id, ReadTo(r), m.from) && x !in Sources(id, m.offsets) {
        assert x in Span(id, m.from, m.upto) - Sources(id, m.offsets);
      }
    }
  }

  lemma DropSource(p: Pipe, at: LaneID, id: LaneID)
    requires SourceOK(p, id) && at in p.hands
    ensures SourceOK(DoDrop(p, at), id)
  {
    if id != at {
      SourceMore(p, DoDrop(p, at), id);
    } else {
      GapWidens(p.readings[id], p.hands[id], id, Decided(p), Decided(DoDrop(p, at)));
    }
  }

  lemma DropAround(p: Pipe, at: LaneID)
    requires Around(p) && at in p.hands
    ensures Around(DoDrop(p, at))
  {
    var p' := DoDrop(p, at);
    DecidedMore(p, p');
    forall id | id in p'.places
      ensures SourceOK(p', id)
    {
      DropSource(p, at, id);
    }
  }

  lemma DropKeeps(p: Pipe, at: LaneID)
    requires AllLinked(p) && Around(p) && at in p.hands
    ensures AllLinked(DoDrop(p, at)) && Around(DoDrop(p, at))
  {
    LinkedMore(p, DoDrop(p, at));
    DropAround(p, at);
  }

  // ---- presenting a batch ------------------------------------------------------------------------------

  lemma FreshGroup(s: State, b: Batch)
    requires b.group !in s.groups
    ensures Admit(s, b).1 != Some(DuplicateGroup)
  {}

  /** The ledger answered without taking the batch in. */
  lemma RefusedLinked(p: Pipe, b: Batch)
    requires Inv(p.led) && AllLinked(p) && b.lane in p.led.lanes && KindOf(b, Admit(p.led, b).1).None?
    ensures AllLinked(p.(led := Admit(p.led, b).0)) && Admit(p.led, b).0.lanes.Keys == p.led.lanes.Keys
  {
    var p' := p.(led := Admit(p.led, b).0);
    AdmitTakes(p.led, b);
    forall id | id in p'.led.lanes
      ensures id in p'.readings && Linked(p'.readings[id], p'.led.lanes[id], id, WorldOf(p'))
    {
      O.AdmitOffer(p.led, b, id);
      assert LaneOK(p.led.lanes[id]);
      SameGrows(p.led.lanes[id], p'.led.lanes[id], {});
      LaneOn(p.readings[id], p.led.lanes[id], p'.led.lanes[id], id, WorldOf(p), WorldOf(p'), {});
    }
  }

  lemma LedAround(p: Pipe, led: State)
    requires Around(p) && led.lanes.Keys == p.led.lanes.Keys && led.acks == p.led.acks
    ensures Around(p.(led := led))
  {
    SourcesMore(p, p.(led := led));
  }

  lemma RefusedKeeps(p: Pipe, id: LaneID)
    requires PipeInv(p) && Presentable(p, id) && KindOf(p.hands[id].batch, Admit(p.led, p.hands[id].batch).1).None?
    ensures AllLinked(DoPresent(p, id)) && Around(DoPresent(p, id))
  {
    var b := p.hands[id].batch;
    RefusedLinked(p, b);
    F.AdmitAcks(p.led, b);
    LedAround(p, Admit(p.led, b).0);
    var p1 := p.(led := Admit(p.led, b).0);
    DropKeeps(p1, id);
    assert DoDrop(p1, id) == DoPresent(p, id);
  }

  lemma TookWorld(p: Pipe, id: LaneID, led: State, e: Option<Error>)
    requires Presentable(p, id) && KindOf(p.hands[id].batch, e).Some? && e != Some(DuplicateGroup)
    ensures TakesIn(p.hands[id], id, KindOf(p.hands[id].batch, e).value, WorldOf(p), WorldOf(Took(p, id, led, e)))
  {}

  lemma TookOwn(p: Pipe, id: LaneID, led: State, e: Option<Error>)
    requires Inv(p.led) && Presentable(p, id) && SourceOK(p, id) && (led, e) == Admit(p.led, p.hands[id].batch)
    requires Linked(p.readings[id], p.led.lanes[id], id, WorldOf(p)) && KindOf(p.hands[id].batch, e).Some?
    ensures var p' := Took(p, id, led, e);
            id in led.lanes && id in p'.readings && Linked(p'.readings[id], led.lanes[id], id, WorldOf(p'))
  {
    var m := p.hands[id];
    FreshGroup(p.led, m.batch);
    AdmitTakes(p.led, m.batch);
    TookWorld(p, id, led, e);
    O.AdmitOffer(p.led, m.batch, id);
    TookLinked(p.readings[id], p.led.lanes[id], led.lanes[id], m, id, KindOf(m.batch, e).value,
               Stamp(p.led, m.batch), WorldOf(p), WorldOf(Took(p, id, led, e)));
  }

  lemma TookLane(p: Pipe, at: LaneID, id: LaneID)
    requires Inv(p.led) && AllLinked(p) && SourceOK(p, at) && Presentable(p, at) && id in p.led.lanes
    requires KindOf(p.hands[at].batch, Admit(p.led, p.hands[at].batch).1).Some?
    ensures var p' := DoPresent(p, at);
            id in p'.led.lanes && id in p'.readings && Linked(p'.readings[id], p'.led.lanes[id], id, WorldOf(p'))
  {
    var (led, e) := Admit(p.led, p.hands[at].batch);
    if id == at {
      TookOwn(p, id, led, e);
    } else {
      FreshGroup(p.led, p.hands[at].batch);
      AdmitTakes(p.led, p.hands[at].batch);
      TookWorld(p, at, led, e);
      SameOn(p.readings[id], p.led.lanes[id], id, WorldOf(p), WorldOf(Took(p, at, led, e)));
    }
  }

  lemma TookSource(p: Pipe, at: LaneID, led: State, e: Option<Error>, id: LaneID)
    requires SourceOK(p, id) && at in p.hands && at in p.readings && at in p.places && SourceOK(p, at)
    ensures SourceOK(Took(p, at, led, e), id)
  {
    var p' := Took(p, at, led, e);
    if id != at {
      SourceMore(p, p', id);
    } else {
      assert ReadTo(p'.readings[id]) == p.hands[id].upto;
    }
  }

  lemma TookAround(p: Pipe, at: LaneID, led: State, e: Option<Error>)
    requires Around(p) && at in p.hands && led.lanes.Keys == p.led.lanes.Keys && led.acks == p.led.acks
    ensures at in p.readings && Around(Took(p, at, led, e))
  {
    var p' := Took(p, at, led, e);
    DecidedMore(p, p');
    forall id | id in p'.places
      ensures SourceOK(p', id)
    {
      TookSource(p, at, led, e, id);
    }
  }

  lemma TookKeeps(p: Pipe, at: LaneID)
    requires PipeInv(p) && Presentable(p, at) && KindOf(p.hands[at].batch, Admit(p.led, p.hands[at].batch).1).Some?
    ensures AllLinked(DoPresent(p, at)) && Around(DoPresent(p, at))
  {
    var (led, e) := Admit(p.led, p.hands[at].batch);
    AdmitTakes(p.led, p.hands[at].batch);
    F.AdmitAcks(p.led, p.hands[at].batch);
    TookAround(p, at, led, e);
    forall id | id in led.lanes
      ensures id in DoPresent(p, at).readings
      ensures Linked(DoPresent(p, at).readings[id], led.lanes[id], id, WorldOf(DoPresent(p, at)))
    {
      TookLane(p, at, id);
    }
  }

  lemma PresentKeeps(p: Pipe, at: LaneID)
    requires PipeInv(p) && Presentable(p, at)
    ensures PipeInv(DoPresent(p, at))
  {
    AdmitKeeps(p.led, p.hands[at].batch);
    if KindOf(p.hands[at].batch, Admit(p.led, p.hands[at].batch).1).Some? {
      TookKeeps(p, at);
    } else {
      RefusedKeeps(p, at);
    }
  }

  // ---- registering, flushing, restarting ---------------------------------------------------------------

  lemma JoinLinked(p: Pipe, id: LaneID, st: Lane, p': Pipe)
    requires AllLinked(p) && StoredDecided(p) && id !in p.led.lanes
    requires st.log == [] && st.history.admissions == [] && st.pendingFlush == None
    requires p'.led.lanes == p.led.lanes[id := st] && WorldOf(p') == WorldOf(p)
    requires p'.readings == p.readings[id := Reading(ResumeAt(p, id), [], ResumeAt(p, id))]
    ensures AllLinked(p')
  {
    forall i | i in p'.led.lanes
      ensures i in p'.readings && Linked(p'.readings[i], p'.led.lanes[i], i, WorldOf(p'))
    {
      if i == id {
        FreshLinked(ResumeAt(p, id), id, st, WorldOf(p));
      } else {
        SameOn(p.readings[i], p.led.lanes[i], i, WorldOf(p), WorldOf(p'));
      }
    }
  }

  lemma JoinSources(p: Pipe, id: LaneID, p': Pipe)
    requires Tables(p) && SourcesOK(p) && id !in p.places && id !in p.hands && Decided(p') == Decided(p)
    requires p'.readings == p.readings[id := Reading(ResumeAt(p, id), [], ResumeAt(p, id))] && p'.hands == p.hands
    requires p'.places == p.places[id := ResumeAt(p, id)]
    ensures SourcesOK(p')
  {
    forall i | i in p'.places
      ensures SourceOK(p', i)
    {
      if i != id {
        SourceMore(p, p', i);
      }
    }
  }

  lemma JoinAround(p: Pipe, id: LaneID, led: State, p': Pipe)
    requires Around(p) && id !in p.led.lanes && led.acks == p.led.acks && led.lanes.Keys == p.led.lanes.Keys + {id}
    requires p' == p.(led := led, readings := p.readings[id := Reading(ResumeAt(p, id), [], ResumeAt(p, id))],
                      places := p.places[id := ResumeAt(p, id)])
    ensures Around(p')
  {
    DecidedMore(p, p');
    JoinSources(p, id, p');
  }

  lemma JoinFields(p: Pipe, id: LaneID, ordering: Ordering, budget: nat, whenFull: WhenFull, dflt: nat)
    requires id !in p.led.lanes
    ensures var p' := Join(p, id, ordering, budget, whenFull, dflt);
            && p'.led == RegisterLane(p.led, id, ordering, budget, whenFull, dflt).0
            && p'.led.lanes == p.led.lanes[id := NewLane(ordering, if budget < 1 then dflt else budget, whenFull)]
            && p'.led.acks == p.led.acks
            && p' == p.(led := p'.led, readings := p.readings[id := Reading(ResumeAt(p, id), [], ResumeAt(p, id))],
                        places := p.places[id := ResumeAt(p, id)])
  {}

  lemma JoinRest(p: Pipe, id: LaneID, p': Pipe)
    requires AllLinked(p) && Around(p) && id !in p.led.lanes
    requires id in p'.led.lanes && p'.led.lanes == p.led.lanes[id := p'.led.lanes[id]] && p'.led.acks == p.led.acks
    requires var st := p'.led.lanes[id]; st.log == [] && st.history.admissions == [] && st.pendingFlush == None
    requires p' == p.(led := p'.led, readings := p.readings[id := Reading(ResumeAt(p, id), [], ResumeAt(p, id))],
                      places := p.places[id := ResumeAt(p, id)])
    ensures AllLinked(p') && Around(p')
  {
    JoinLinked(p, id, p'.led.lanes[id], p');
    JoinAround(p, id, p'.led, p');
  }

  lemma JoinKeeps(p: Pipe, id: LaneID, ordering: Ordering, budget: nat, whenFull: WhenFull, dflt: nat)
    requires PipeInv(p)
    ensures PipeInv(Join(p, id, ordering, budget, whenFull, dflt))
  {
    if id !in p.led.lanes {
      RegisterKeeps(p.led, id, ordering, budget, whenFull, dflt);
      JoinFields(p, id, ordering, budget, whenFull, dflt);
      JoinRest(p, id, Join(p, id, ordering, budget, whenFull, dflt));
    }
  }

  lemma TakeFields(p: Pipe, id: LaneID)
    requires id in p.led.lanes && id in p.readings
    ensures var p', st := DoTake(p), p.led.lanes[id];
            && WorldOf(p') == WorldOf(p)
            && id in p'.led.lanes && p'.led.lanes[id] == FlushLane(st)
            && id in p'.readings && (id in p'.phase.m <==> Offers(st))
            && (Offers(st) ==> p'.phase.m[id] == st.pendingFlush.value)
            && p'.readings[id] ==
               if Offers(st) then p.readings[id].(mark := st.pendingFlush.value.token) else p.readings[id]
  {}

  lemma TakeLane(p: Pipe, id: LaneID)
    requires Inv(p.led) && id in p.led.lanes && id in p.readings
    requires Linked(p.readings[id], p.led.lanes[id], id, WorldOf(p))
    ensures var p' := DoTake(p);
            && id in p'.led.lanes && id in p'.readings
            && Linked(p'.readings[id], p'.led.lanes[id], id, WorldOf(p'))
            && (id in p'.phase.m ==>
                  p'.phase.m[id].token == p'.readings[id].mark && AllIn(WorldOf(p').decided, id, p'.phase.m[id].token))
  {
    TakeFields(p, id);
    assert LaneOK(p.led.lanes[id]);
    if Offers(p.led.lanes[id]) {
      TakenOffer(p.readings[id], p.led.lanes[id], id, WorldOf(p));
    } else {
      NotTaken(p.readings[id], p.led.lanes[id], id, WorldOf(p));
    }
  }

  lemma TakeAround(p: Pipe, p': Pipe)
    requires Around(p) && p' == DoTake(p)
    requires forall id :: id in p'.phase.m ==>
               id in p'.readings && p'.phase.m[id].token == p'.readings[id].mark &&
                   AllIn(Decided(p'), id, p'.phase.m[id].token)
    ensures Around(p')
  {
    forall id | id in p.readings
      ensures id in p'.readings && ReadTo(p'.readings[id]) == ReadTo(p.readings[id])
    {
    }
    SourcesMore(p, p');
  }

  lemma TakeKeeps(p: Pipe)
    requires PipeInv(p)
    ensures PipeInv(DoTake(p))
  {
    var p' := DoTake(p);
    FlushableKeeps(p.led);
    forall id | id in p.led.lanes
      ensures id in p'.readings && Linked(p'.readings[id], p'.led.lanes[id], id, WorldOf(p'))
      ensures id in p'.phase.m ==>
                p'.phase.m[id].token == p'.readings[id].mark && AllIn(Decided(p'), id, p'.phase.m[id].token)
    {
      TakeLane(p, id);
    }
    TakeAround(p, p');
  }

  lemma PersistedCursors(p: Pipe)
    requires Tables(p) && PhaseOK(p) && AllLinked(p) && p.phase.Offered?
    ensures var p' := DoPersist(p);
            && (forall id :: id in p.cursors ==> id in p'.cursors && p.cursors[id] <= p'.cursors[id])
            && (forall id :: id in p'.cursors && id in p.readings ==> p'.cursors[id] <= p.readings[id].mark)
  {
    var p' := DoPersist(p);
    forall id | id in p'.cursors && id in p.readings
      ensures p'.cursors[id] <= p.readings[id].mark
      ensures id in p.cursors ==> p.cursors[id] <= p'.cursors[id]
    {
      assert Linked(p.readings[id], p.led.lanes[id], id, WorldOf(p));
    }
  }

  lemma AcksStayBehind(acks: seq<Ack>, cursors: map<LaneID, int>, after: map<LaneID, int>)
    requires AcksBehind(acks, cursors)
    requires forall id :: id in cursors ==> id in after && cursors[id] <= after[id]
    ensures AcksBehind(acks, after)
  {
    forall j | 0 <= j < |acks|
      ensures Behind(acks[j], after)
    {
      assert Behind(acks[j], cursors);
    }
  }

  lemma PersistAround(p: Pipe)
    requires Around(p) && p.phase.Offered?
    requires forall id :: id in p.cursors ==> id in DoPersist(p).cursors && p.cursors[id] <= DoPersist(p).cursors[id]
    ensures Around(DoPersist(p))
  {
    SourcesMore(p, DoPersist(p));
    AcksStayBehind(p.led.acks, p.cursors, DoPersist(p).cursors);
  }

  lemma PersistKeeps(p: Pipe)
    requires AllLinked(p) && Around(p) && p.phase.Offered?
    ensures AllLinked(DoPersist(p)) && Around(DoPersist(p))
  {
    var p' := DoPersist(p);
    PersistedCursors(p);
    PersistAround(p);
    forall id | id in p'.led.lanes
      ensures id in p'.readings && Linked(p'.readings[id], p'.led.lanes[id], id, WorldOf(p'))
    {
      StoredOn(p.readings[id], p.led.lanes[id], id, WorldOf(p), p'.cursors);
    }
  }

  /** What is lost at or before a cursor stays known, so every cursor stays decided. */
  lemma CrashKeeps(p: Pipe)
    requires Around(p)
    ensures PipeInv(DoCrash(p))
  {
    InitialInv();
    var p' := DoCrash(p);
    forall id, o | id in p'.cursors && 0 < o <= p'.cursors[id]
      ensures Source(id, o) in Decided(p')
    {
      assert Source(id, o) in Decided(p);
    }
  }

  lemma GiveUpKeeps(p: Pipe)
    requires AllLinked(p) && Around(p)
    ensures AllLinked(p.(phase := Idle)) && Around(p.(phase := Idle))
  {
    LinkedMore(p, p.(phase := Idle));
    SourcesMore(p, p.(phase := Idle));
  }

  lemma ToldAround(p: Pipe, n: nat, told: map<LaneID, int>)
    requires Around(p) && forall id :: id in told ==> id in p.cursors && told[id] <= p.cursors[id]
    ensures Around(p.(pumped := n, told := told))
  {
    SourcesMore(p, p.(pumped := n, told := told));
  }

  lemma ToldLinked(p: Pipe, n: nat, told: map<LaneID, int>)
    requires AllLinked(p)
    ensures AllLinked(p.(pumped := n, told := told))
  {
    LinkedMore(p, p.(pumped := n, told := told));
  }

  lemma Pumped(p: Pipe)
    requires AcksBehind(p.led.acks, p.cursors) && NeverAhead(p) && p.pumped < |p.led.acks|
    ensures DoPump(p) == p.(pumped := p.pumped + 1, told := DoPump(p).told)
    ensures forall id :: id in DoPump(p).told ==> id in p.cursors && DoPump(p).told[id] <= p.cursors[id]
  {
    assert Behind(p.led.acks[p.pumped], p.cursors);
  }

  lemma PumpKeeps(p: Pipe)
    requires AllLinked(p) && Around(p) && p.pumped < |p.led.acks|
    ensures AllLinked(DoPump(p)) && Around(DoPump(p))
  {
    Pumped(p);
    ToldAround(p, p.pumped + 1, DoPump(p).told);
    ToldLinked(p, p.pumped + 1, DoPump(p).told);
  }

  // ---- runs --------------------------------------------------------------------------------------------

  /** Moves that do not call the ledger. */
  predicate Outside(m: Move) { m.Produce? || m.Drop? || m.Persist? || m.GiveUp? || m.Pump? }

  lemma OutsideKeeps(p: Pipe, m: Move)
    requires AllLinked(p) && Around(p) && Enabled(p, m) && Outside(m)
    ensures AllLinked(After(p, m)) && Around(After(p, m))
  {
    match m
    case Produce(b, upto, offsets) => ProduceKeeps(p, b, upto, offsets);
    case Drop(id) => DropKeeps(p, id);
    case Persist => PersistKeeps(p);
    case GiveUp => GiveUpKeeps(p);
    case Pump => PumpKeeps(p);
  }

  lemma OutsideLedger(p: Pipe, m: Move)
    requires Enabled(p, m) && Outside(m)
    ensures After(p, m).led == p.led
  {}

  lemma LedgerKeeps(p: Pipe, m: Move)
    requires PipeInv(p) && Enabled(p, m) && !Outside(m)
    ensures PipeInv(After(p, m))
  {
    match m
    case Register(id, ordering, budget, whenFull, dflt) => JoinKeeps(p, id, ordering, budget, whenFull, dflt);
    case Present(id) => PresentKeeps(p, id);
    case Call(op) => CallKeeps(p, op);
    case Take => TakeKeeps(p);
    case Confirm(order) => ConfirmKeeps(p, order);
    case Crash => CrashKeeps(p);
  }

  lemma MoveKeeps(p: Pipe, m: Move)
    requires PipeInv(p) && Enabled(p, m)
    ensures PipeInv(After(p, m))
  {
    if Outside(m) {
      OutsideLedger(p, m);
      OutsideKeeps(p, m);
    } else {
      LedgerKeeps(p, m);
    }
  }

  lemma StartInv()
    ensures PipeInv(Start())
  {
    InitialInv();
  }

  lemma {:induction false} MovesKeep(p: Pipe, ms: seq<Move>)
    requires PipeInv(p) && AllEnabled(p, ms)
    ensures PipeInv(Moves(p, ms))
  {
    if ms == [] {
    } else {
      MovesKeep(p, ms[..|ms| - 1]);
      MoveKeeps(Moves(p, ms[..|ms| - 1]), ms[|ms| - 1]);
    }
  }

  /**
   Over every run, with a crash between any two moves and whatever batches are thrown away: the
   upstream is never told to advance past the stored cursor, and every record at or before the
   stored cursor has reached its end or was lost.
   */
  lemma StoredIsDecided(ms: seq<Move>, id: LaneID, o: int)
    requires AllEnabled(Start(), ms) && id in Moves(Start(), ms).cursors && 0 < o <= Moves(Start(), ms).cursors[id]
    ensures var p := Moves(Start(), ms);
            NeverAhead(p) && (Source(id, o) in p.terminal || Source(id, o) in p.lost)
  {
    StartInv();
    MovesKeep(Start(), ms);
  }

  lemma ToldIsStored(ms: seq<Move>)
    requires AllEnabled(Start(), ms)
    ensures NeverAhead(Moves(Start(), ms))
  {
    StartInv();
    MovesKeep(Start(), ms);
  }

  lemma CursorsSame(p: Pipe, m: Move)
    requires Enabled(p, m) && !m.Persist?
    ensures After(p, m).cursors == p.cursors
  {}

  lemma CursorStays(p: Pipe, m: Move, id: LaneID)
    requires AllLinked(p) && Around(p) && Enabled(p, m) && id in p.cursors
    ensures id in After(p, m).cursors && p.cursors[id] <= After(p, m).cursors[id]
  {
    if m.Persist? {
      PersistedCursors(p);
    } else {
      CursorsSame(p, m);
    }
  }

  /** Over every run, no move takes a stored cursor back. */
  lemma CursorsAdvance(ms: seq<Move>, m: Move, id: LaneID)
    requires AllEnabled(Start(), ms) && Enabled(Moves(Start(), ms), m) && id in Moves(Start(), ms).cursors
    ensures var p := Moves(Start(), ms);
            id in After(p, m).cursors && p.cursors[id] <= After(p, m).cursors[id]
  {
    StartInv();
    MovesKeep(Start(), ms);
    CursorStays(Moves(Start(), ms), m, id);
  }
}
