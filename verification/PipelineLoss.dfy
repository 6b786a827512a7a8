/** When nothing is lost for good: the exact condition, and how a reader of lanes can keep to it. */
module PipelineLoss {
  import opened Wrappers
  import opened Records
  import opened LedgerSpec
  import opened LedgerRuns
  import opened PipelineSpec
  import opened PipelineLanes
  import opened Pipeline

  // ---- what is lost is not terminal -------------------------------------------------------------------

  /** How far the source had come in a lane, leaving the batch in hand aside. */
  function Limit(p: Pipe, id: LaneID): int {
    if id in p.places then Edge(p, id) else ResumeAt(p, id)
  }

  /** Lost records and admitted ones lie behind the limit, and none is both. */
  predicate Apart(p: Pipe) {
    && p.terminal !! p.lost
    && (forall x :: x in p.lost ==> x.offset <= Limit(p, x.lane))
    && (forall r :: r in p.origin ==>
          p.origin[r] !in p.lost && p.origin[r].lane in p.places && p.origin[r].offset <= Limit(p, p.origin[r].lane))
  }

  /** The batch in hand lies beyond the limit. */
  lemma HandBeyond(p: Pipe, id: LaneID, x: Source)
    requires Apart(p) && SourceOK(p, id) && id in p.hands && x in Sources(id, p.hands[id].offsets)
    ensures x !in p.lost && x.lane == id && Limit(p, id) < x.offset <= p.places[id]
  {}

  lemma ProduceApart(p: Pipe, b: Batch, upto: int, offsets: map<RecordID, int>)
    requires Apart(p) && Producible(p, b, upto, offsets)
    ensures Apart(DoProduce(p, b, upto, offsets))
  {
    var p' := DoProduce(p, b, upto, offsets);
    forall id: LaneID
      ensures Limit(p', id) == Limit(p, id)
    {
    }
    assert p'.terminal !! p'.lost by {
      forall x | x in Span(b.lane, p.places[b.lane], upto)
        ensures x !in p.lost
      {
        assert x.lane == b.lane && Limit(p, x.lane) == p.places[b.lane];
      }
    }
  }

  lemma DropApart(p: Pipe, id: LaneID)
    requires Apart(p) && SourceOK(p, id) && id in p.hands
    ensures Apart(DoDrop(p, id))
  {
    var p' := DoDrop(p, id);
    forall x | x in p'.lost
      ensures x.offset <= Limit(p', x.lane)
    {
      if x !in p.lost {
        HandBeyond(p, id, x);
      }
    }
    forall r | r in p'.origin
      ensures p'.origin[r] !in p'.lost && p'.origin[r].offset <= Limit(p', p'.origin[r].lane)
    {
      if p'.origin[r] in p'.lost {
        HandBeyond(p, id, p'.origin[r]);
      }
    }
  }

  lemma TookApart(p: Pipe, id: LaneID, led: State, e: Option<Error>)
    requires Apart(p) && SourceOK(p, id) && Presentable(p, id)
    ensures Apart(Took(p, id, led, e))
  {
    var p' := Took(p, id, led, e);
    var taken := Sources(id, p.hands[id].offsets);
    forall x | x in taken
      ensures x !in p.lost && x.lane == id && x.offset <= Limit(p', id)
    {
      HandBeyond(p, id, x);
    }
    forall r | r in p'.origin
      ensures p'.origin[r] !in p'.lost && p'.origin[r].lane in p'.places
      ensures p'.origin[r].offset <= Limit(p', p'.origin[r].lane)
    {
      if r in p.hands[id].offsets {
        assert p'.origin[r] in taken;
      } else {
        assert p'.origin[r] == p.origin[r];
      }
    }
  }

  lemma LedApart(p: Pipe, led: State)
    requires Apart(p)
    ensures Apart(p.(led := led))
  {
    forall id: LaneID
      ensures Limit(p.(led := led), id) == Limit(p, id)
    {
    }
  }

  lemma PresentApart(p: Pipe, id: LaneID)
    requires Apart(p) && SourceOK(p, id) && Presentable(p, id)
    ensures Apart(DoPresent(p, id))
  {
    var (led, e) := Admit(p.led, p.hands[id].batch);
    if KindOf(p.hands[id].batch, e).Some? {
      TookApart(p, id, led, e);
    } else {
      DropApart(p, id);
      LedApart(DoDrop(p, id), led);
    }
  }

  /** Where the sources are does not change, nor what is lost; what ended was admitted. */
  lemma SameApart(p: Pipe, p': Pipe)
    requires Apart(p) && p'.lost == p.lost && p'.origin == p.origin && p'.places == p.places && p'.hands == p.hands
    requires forall id :: id !in p.places ==> ResumeAt(p', id) == ResumeAt(p, id)
    requires forall x :: x in p'.terminal ==> x in p.terminal || x in p.origin.Values
    ensures Apart(p')
  {
    forall id: LaneID
      ensures Limit(p', id) == Limit(p, id)
    {
    }
  }

  lemma JoinApart(p: Pipe, id: LaneID, ordering: Ordering, budget: nat, whenFull: WhenFull, dflt: nat)
    requires Apart(p) && Tables(p)
    ensures Apart(Join(p, id, ordering, budget, whenFull, dflt))
  {
    var p' := Join(p, id, ordering, budget, whenFull, dflt);
    forall i: LaneID
      ensures Limit(p', i) == Limit(p, i)
    {
    }
  }

  lemma CrashApart(p: Pipe)
    requires Apart(p)
    ensures Apart(DoCrash(p))
  {}

  lemma TakeSame(p: Pipe)
    ensures var p' := DoTake(p);
            && p'.lost == p.lost && p'.origin == p.origin && p'.places == p.places && p'.hands == p.hands
            && p'.terminal == p.terminal && p'.cursors == p.cursors
  {}

  lemma PersistApart(p: Pipe)
    requires Apart(p) && Around(p) && p.phase.Offered?
    ensures Apart(DoPersist(p))
  {
    SameApart(p, DoPersist(p));
  }

  /** Moves that leave the sources and what is lost alone. */
  predicate Still(m: Move) { m.Call? || m.Take? || m.GiveUp? || m.Confirm? || m.Pump? }

  lemma StillFields(p: Pipe, m: Move)
    requires Enabled(p, m) && Still(m)
    ensures var p' := After(p, m);
            && p'.lost == p.lost && p'.origin == p.origin && p'.places == p.places && p'.hands == p.hands
            && p'.dropped == p.dropped && p'.cursors == p.cursors
            && (forall x :: x in p'.terminal ==> x in p.terminal || x in p.origin.Values)
            && (!m.Take? ==> p'.readings == p.readings)
  {
    if m.Take? {
      TakeSame(p);
    }
  }

  lemma MoveApart(p: Pipe, m: Move)
    requires Apart(p) && Around(p) && Enabled(p, m)
    ensures Apart(After(p, m))
  {
    if Still(m) {
      StillFields(p, m);
      SameApart(p, After(p, m));
    } else {
      match m
      case Register(id, ordering, budget, whenFull, dflt) => JoinApart(p, id, ordering, budget, whenFull, dflt);
      case Produce(b, upto, offsets) => ProduceApart(p, b, upto, offsets);
      case Present(id) => PresentApart(p, id);
      case Drop(id) => DropApart(p, id);
      case Persist => PersistApart(p);
      case Crash => CrashApart(p);
    }
  }

  lemma {:induction false} MovesApart(p: Pipe, ms: seq<Move>)
    requires PipeInv(p) && Apart(p) && AllEnabled(p, ms)
    ensures Apart(Moves(p, ms))
  {
    if ms == [] {
    } else {
      MovesApart(p, ms[..|ms| - 1]);
      MovesKeep(p, ms[..|ms| - 1]);
      MoveApart(Moves(p, ms[..|ms| - 1]), ms[|ms| - 1]);
    }
  }

  /** No record that was lost lies at or before its lane's stored cursor. */
  predicate NoneLostBehind(p: Pipe) {
    forall x :: x in p.lost && x.lane in p.cursors ==> !(0 < x.offset <= p.cursors[x.lane])
  }

  lemma SafeExactly(p: Pipe)
    requires NeverAhead(p) && StoredDecided(p) && p.terminal !! p.lost
    ensures Safe(p) <==> NoneLostBehind(p)
  {
    if NoneLostBehind(p) {
      forall id, o | id in p.cursors && 0 < o <= p.cursors[id]
        ensures Source(id, o) in p.terminal
      {
        assert Source(id, o) in Decided(p);
      }
    }
    if Safe(p) {
      forall x | x in p.lost && x.lane in p.cursors
        ensures !(0 < x.offset <= p.cursors[x.lane])
      {
        assert x == Source(x.lane, x.offset);
      }
    }
  }

  /**
   Over every run, with a crash between any two moves: the pipeline is safe exactly when no lost
   record lies at or before its lane's stored cursor.
   */
  lemma SafeUnlessLost(ms: seq<Move>)
    requires AllEnabled(Start(), ms)
    ensures Safe(Moves(Start(), ms)) <==> NoneLostBehind(Moves(Start(), ms))
  {
    StartInv();
    MovesKeep(Start(), ms);
    MovesApart(Start(), ms);
    SafeExactly(Moves(Start(), ms));
  }

  // ---- reading with care ------------------------------------------------------------------------------

  /** A lane that lost a batch is not read again before a restart. */
  predicate Careful(p: Pipe, m: Move) { m.Produce? ==> m.batch.lane !in p.dropped }

  predicate AllCareful(p: Pipe, ms: seq<Move>)
    requires AllEnabled(p, ms)
  {
    ms == [] || (AllCareful(p, ms[..|ms| - 1]) && Careful(Moves(p, ms[..|ms| - 1]), ms[|ms| - 1]))
  }

  /** Offsets count from one, so no run resumes before the beginning. */
  predicate Grounded(p: Pipe) {
    && (forall id :: id in p.cursors ==> p.cursors[id] >= 0)
    && (forall id :: id in p.readings ==> p.readings[id].base >= 0)
  }

  /** Whatever is lost lies beyond all that was admitted to its lane, and its lane has nothing in hand. */
  predicate Kept(p: Pipe) {
    && (forall x :: x in p.lost ==>
          x.lane in p.dropped && x.lane in p.readings && ReadTo(p.readings[x.lane]) < x.offset)
    && (forall id :: id in p.dropped ==> id !in p.hands)
  }

  lemma ProduceKept(p: Pipe, b: Batch, upto: int, offsets: map<RecordID, int>)
    requires Kept(p) && b.lane in p.places && b.lane !in p.dropped
    ensures Kept(DoProduce(p, b, upto, offsets))
  {}

  lemma DropKept(p: Pipe, id: LaneID)
    requires Kept(p) && SourceOK(p, id) && id in p.hands
    ensures Kept(DoDrop(p, id))
  {
    var p' := DoDrop(p, id);
    forall x | x in p'.lost
      ensures x.lane in p'.dropped && x.lane in p'.readings && ReadTo(p'.readings[x.lane]) < x.offset
    {
      if x !in p.lost {
        assert x in Sources(id, p.hands[id].offsets);
      }
    }
  }

  lemma TookKept(p: Pipe, id: LaneID, led: State, e: Option<Error>)
    requires Kept(p) && id in p.hands && id in p.readings
    ensures Kept(Took(p, id, led, e))
  {}

  lemma PresentKept(p: Pipe, id: LaneID)
    requires Kept(p) && SourceOK(p, id) && Presentable(p, id)
    ensures Kept(DoPresent(p, id))
  {
    var (led, e) := Admit(p.led, p.hands[id].batch);
    if KindOf(p.hands[id].batch, e).Some? {
      TookKept(p, id, led, e);
    } else {
      DropKept(p, id);
    }
  }

  lemma SameKept(p: Pipe, p': Pipe)
    requires Kept(p) && p'.lost == p.lost && p'.dropped == p.dropped && p'.hands == p.hands
    requires forall id :: id in p.readings ==> id in p'.readings && ReadTo(p'.readings[id]) == ReadTo(p.readings[id])
    ensures Kept(p')
  {}

  /** The stored cursor is no further than what was admitted. */
  lemma CursorReach(p: Pipe, id: LaneID)
    requires AllLinked(p) && id in p.led.lanes && id in p.readings
    ensures p.readings[id].base <= ReadTo(p.readings[id])
    ensures id in p.cursors ==> p.cursors[id] <= ReadTo(p.readings[id])
  {
    var r, st := p.readings[id], p.led.lanes[id];
    assert Linked(r, st, id, WorldOf(p));
    Rising(r, st, id, WorldOf(p), PipelineLanes.T.Run(st.log), |r.uptos|);
    Rising(r, st, id, WorldOf(p), 0, |r.uptos|);
  }

  /** So a careful run has nothing lost behind a cursor, and a restart reads all of it again. */
  lemma KeptBehind(p: Pipe)
    requires Kept(p) && Grounded(p) && AllLinked(p) && Tables(p)
    ensures NoneLostBehind(p) && DoCrash(p).lost == {}
  {
    forall x | x in p.lost
      ensures ResumeAt(p, x.lane) < x.offset
    {
      CursorReach(p, x.lane);
    }
  }

  lemma TakeReads(p: Pipe, id: LaneID)
    requires id in p.readings
    ensures var p' := DoTake(p);
            && id in p'.readings && ReadTo(p'.readings[id]) == ReadTo(p.readings[id])
            && p'.readings[id].base == p.readings[id].base
  {}

  lemma TakeKept(p: Pipe)
    requires Kept(p)
    ensures Kept(DoTake(p))
  {
    TakeSame(p);
    forall id | id in p.readings
      ensures id in DoTake(p).readings && ReadTo(DoTake(p).readings[id]) == ReadTo(p.readings[id])
    {
      TakeReads(p, id);
    }
    assert DoTake(p).dropped == p.dropped;
    SameKept(p, DoTake(p));
  }

  lemma JoinKept(p: Pipe, id: LaneID, ordering: Ordering, budget: nat, whenFull: WhenFull, dflt: nat)
    requires Kept(p) && Tables(p)
    ensures Kept(Join(p, id, ordering, budget, whenFull, dflt))
  {
    SameKept(p, Join(p, id, ordering, budget, whenFull, dflt));
  }

  lemma MoveKept(p: Pipe, m: Move)
    requires Kept(p) && Grounded(p) && AllLinked(p) && Around(p) && Enabled(p, m) && Careful(p, m)
    ensures Kept(After(p, m))
  {
    if m.Take? {
      TakeKept(p);
    } else if Still(m) {
      StillFields(p, m);
      SameKept(p, After(p, m));
    } else {
      match m
      case Register(id, ordering, budget, whenFull, dflt) => JoinKept(p, id, ordering, budget, whenFull, dflt);
      case Produce(b, upto, offsets) => ProduceKept(p, b, upto, offsets);
      case Present(id) => PresentKept(p, id);
      case Drop(id) => DropKept(p, id);
      case Persist => SameKept(p, DoPersist(p));
      case Crash => KeptBehind(p);
    }
  }

  lemma PersistGrounded(p: Pipe)
    requires Grounded(p) && AllLinked(p) && Around(p) && p.phase.Offered?
    ensures Grounded(DoPersist(p))
  {
    forall id | id in p.phase.m
      ensures p.phase.m[id].token >= 0
    {
      assert Linked(p.readings[id], p.led.lanes[id], id, WorldOf(p));
    }
  }

  lemma TakeGrounded(p: Pipe)
    requires Grounded(p)
    ensures Grounded(DoTake(p))
  {
    TakeSame(p);
    forall id | id in DoTake(p).readings
      ensures DoTake(p).readings[id].base >= 0
    {
      TakeReads(p, id);
    }
  }

  lemma MoveGrounded(p: Pipe, m: Move)
    requires Grounded(p) && AllLinked(p) && Around(p) && Enabled(p, m)
    ensures Grounded(After(p, m))
  {
    if m.Persist? {
      PersistGrounded(p);
    } else if m.Take? {
      TakeGrounded(p);
    } else {
      CursorsSame(p, m);
      OtherBases(p, m);
    }
  }

  lemma OtherBases(p: Pipe, m: Move)
    requires Grounded(p) && Enabled(p, m) && !m.Take? && !m.Persist?
    ensures forall id :: id in After(p, m).readings ==> After(p, m).readings[id].base >= 0
  {}

  lemma {:induction false} MovesKept(p: Pipe, ms: seq<Move>)
    requires PipeInv(p) && Kept(p) && Grounded(p) && AllEnabled(p, ms) && AllCareful(p, ms)
    ensures Kept(Moves(p, ms)) && Grounded(Moves(p, ms))
  {
    if ms == [] {
    } else {
      MovesKept(p, ms[..|ms| - 1]);
      MovesKeep(p, ms[..|ms| - 1]);
      MoveKept(Moves(p, ms[..|ms| - 1]), ms[|ms| - 1]);
      MoveGrounded(Moves(p, ms[..|ms| - 1]), ms[|ms| - 1]);
    }
  }

  /**
   Over every run in which no lane that lost a batch is read again before a restart, with a crash
   between any two moves: the upstream is never told to advance past the stored cursor, and every
   record at or before the stored cursor has reached its end.
   */
  lemma NothingSkipped(ms: seq<Move>)
    requires AllEnabled(Start(), ms) && AllCareful(Start(), ms)
    ensures Safe(Moves(Start(), ms))
  {
    StartInv();
    MovesKeep(Start(), ms);
    MovesKept(Start(), ms);
    KeptBehind(Moves(Start(), ms));
    SafeUnlessLost(ms);
  }
}
