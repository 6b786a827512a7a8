/**
 Why the care is needed: a lane whose batch the ledger gave up on, read on in the same run, gets a
 stored cursor beyond a record nobody ever delivered.
 */
module PipelineLeak {
  import opened Wrappers
  import opened Records
  import opened LedgerSpec
  import opened LedgerRuns
  import opened PipelineSpec
  import opened Pipeline
  import opened PipelineLoss
  import E = LedgerEpochs
  import F = LedgerFence
  import T = TrackerSpec

  function At(token: int): Position { Position(0, token, None, true) }

  /** A batch of one record at an offset, and a position with none. */
  function Single(r: RecordID, offset: nat): Move {
    Produce(Batch(0, offset, [Rec(r, 0, None)], At(offset)), offset, map[r := offset])
  }

  const IDLE: Move := Produce(Batch(0, 3, [], At(3)), 3, map[])

  /**
   A lane with room for one record: the first batch is taken in; the second waits for room until its
   read is cancelled, and is thrown away; the lane is read on; and the first record's outcome lets
   the cursor move to where the source is.
   */
  function Script(a: RecordID, b: RecordID): seq<Move> { Lost(a, b) + [IDLE] + [Present(0)] + Flush(a) }

  function Opening(a: RecordID): seq<Move> { [Register(0, Prefix, 1, Block, 1), Single(a, 1), Present(0)] }

  function Lost(a: RecordID, b: RecordID): seq<Move> { Opening(a) + [Single(b, 2)] + [Present(0)] }

  function Flush(a: RecordID): seq<Move> { [Call(DoSettle([Outcome(a, Delivered)])), Take, Persist] }

  // ---- the ledger along the way ------------------------------------------------------------------------

  /** The lane with its budget of one taken by the first batch. */
  predicate Full(s: State, a: RecordID) {
    && s.lanes.Keys == {0}
    && var st := s.lanes[0];
       && st.log == [T.Entry(At(1).(seqno := 1), 1, 1, false)] && |st.history.admissions| == 1
       && st.seqno == 1 && st.budget == 1 && st.whenFull == Block
       && st.fencedThrough == 0 && st.ordering == Prefix && st.pending == 1 && st.committed == None
       && s.byRec == map[a := 1]
       && s.groups.Keys == {1}
       && var g := s.groups[1]; g.lane == 0 && g.ticket == 0 && g.refs == 1 && g.settled == 0
  }

  /** Only the first batch and the idle position are in the log; the batch between them took a number. */
  predicate Skips(s: State, a: RecordID) {
    && s.lanes.Keys == {0}
    && var st := s.lanes[0];
       && st.log == [T.Entry(At(1).(seqno := 1), 1, 1, false), T.Entry(At(3).(seqno := 3), 0, 0, false)]
       && |st.history.admissions| == 2
       && st.fencedThrough == 0 && st.ordering == Prefix && st.pending == 1 && st.committed == None
       && s.byRec == map[a := 1]
       && s.groups.Keys == {1}
       && var g := s.groups[1]; g.lane == 0 && g.ticket == 0 && g.refs == 1 && g.settled == 0
  }

  lemma FirstFills(a: RecordID, s: State)
    requires s == RegisterLane(Initial(), 0, Prefix, 1, Block, 1).0
    ensures var (s', e) := Admit(s, Batch(0, 1, [Rec(a, 0, None)], At(1))); e == None && Full(s', a)
  {
    assert s.lanes[0].log == [] && s.lanes[0].history.admissions == [];
    assert Ids([Rec(a, 0, None)]) == {a};
  }

  lemma FullGivesUp(s: State, a: RecordID, b: RecordID)
    requires Full(s, a)
    ensures Admit(s, Batch(0, 2, [Rec(b, 0, None)], At(2)))
         == (SetLane(s, 0, s.lanes[0].(seqno := 2)), Some(Cancelled))
  {
    var log := s.lanes[0].log;
    T.RunUnique(log, 0);
    assert log[0..] == [log[0]];
    T.WeightSingle(log[0]);
  }

  lemma IdleSkips(s: State, a: RecordID)
    requires Full(s, a)
    ensures var (s', e) := Admit(SetLane(s, 0, s.lanes[0].(seqno := 2)), Batch(0, 3, [], At(3)));
            e == None && Skips(s', a)
  {}

  lemma SkippedLane(st: Lane, g: Group, o: Outcome)
    requires st.log == [T.Entry(At(1).(seqno := 1), 1, 1, false), T.Entry(At(3).(seqno := 3), 0, 0, false)]
    requires |st.history.admissions| == 2 && st.pending == 1
    requires st.fencedThrough == 0 && st.ordering == Prefix && st.committed == None
    requires g.lane == 0 && g.ticket == 0 && g.refs == 1 && g.settled == 0 && o.disposition == Delivered
    ensures var t := LaneAfter(st, g, o);
            && t.fencedThrough == 0 && t.committed == None
            && AdvancesOf(st, g, o) == [Advance(0, At(3).(seqno := 3))]
  {
    T.RunUnique(st.log, 0);
    var l := Noted(st, g, o).log;
    assert l == st.log[0 := st.log[0].(refs := 0)];
    T.RunUnique(l, 2);
  }

  lemma SkippedOffer(s: State, a: RecordID, o: Outcome)
    requires Skips(s, a) && o == Outcome(a, Delivered)
    ensures var s' := Settle(s, [o]); 0 in Flushable(s').1 && Flushable(s').1[0].token == 3
  {
    SkippedLane(s.lanes[0], s.groups[1], o);
    E.SettleSingle(s, [o], Advance(0, At(3).(seqno := 3)));
  }

  // ---- the pipeline along the way ----------------------------------------------------------------------

  lemma Extend(p: Pipe, ms: seq<Move>, m: Move, more: seq<Move>)
    requires AllEnabled(p, ms) && Enabled(Moves(p, ms), m) && more == ms + [m]
    ensures AllEnabled(p, more) && Moves(p, more) == After(Moves(p, ms), m)
  {
    assert more[..|ms|] == ms;
  }

  /** A batch of one record is produced where the source is. */
  lemma ProducesSingle(p: Pipe, r: RecordID, n: nat)
    requires 0 in p.led.lanes && p.hands == map[] && p.places == map[0 := n]
    ensures Enabled(p, Single(r, n + 1))
    ensures var q := After(p, Single(r, n + 1));
            && q == p.(places := map[0 := n + 1], hands := map[0 := MadeSingle(r, n + 1)])
  {
    var offsets := map[r := n + 1];
    assert Ids([Rec(r, 0, None)]) == {r};
    assert Span(0, n, n + 1) - Sources(0, offsets) == {} by {
      assert Source(0, n + 1) == Source(0, offsets[r]);
    }
    assert p.terminal + {} == p.terminal;
  }

  function MadeSingle(r: RecordID, offset: nat): Made
    requires offset > 0
  {
    Made(Batch(0, offset, [Rec(r, 0, None)], At(offset)), offset - 1, offset, map[r := offset])
  }

  /** The first batch is in, and the source stands at its end. */
  predicate One(p: Pipe, a: RecordID) {
    && Full(p.led, a) && p.phase.Idle? && p.readings.Keys == {0} && p.places == map[0 := 1] && p.hands == map[]
    && p.origin == map[a := Source(0, 1)] && p.terminal == {} && p.lost == {} && p.cursors == map[]
  }

  lemma Registers(p: Pipe)
    requires p == Start()
    ensures var q := After(p, Register(0, Prefix, 1, Block, 1));
            q == p.(led := RegisterLane(Initial(), 0, Prefix, 1, Block, 1).0,
                    readings := map[0 := Reading(0, [], 0)], places := map[0 := 0])
  {}

  lemma TakesFirst(p: Pipe, a: RecordID)
    requires p.led == RegisterLane(Initial(), 0, Prefix, 1, Block, 1).0 && p.phase.Idle?
    requires p.readings == map[0 := Reading(0, [], 0)] && p.places == map[0 := 1] &&
             p.hands == map[0 := MadeSingle(a, 1)]
    requires p.origin == map[] && p.terminal == {} && p.lost == {} && p.cursors == map[]
    ensures Enabled(p, Present(0)) && One(After(p, Present(0)), a)
  {
    FirstFills(a, p.led);
    assert Origins(0, map[a := 1]) == map[a := Source(0, 1)];
  }

  /** The second batch was given up on, and what it carried is lost. */
  ghost predicate Two(p: Pipe, a: RecordID) {
    && 0 in p.led.lanes
    && (exists s :: Full(s, a) && p.led == SetLane(s, 0, s.lanes[0].(seqno := 2)))
    && p.phase.Idle? && p.readings.Keys == {0} && p.places == map[0 := 2] && p.hands == map[]
    && p.origin == map[a := Source(0, 1)] && p.lost == {Source(0, 2)} && p.cursors == map[]
  }

  /** A batch answered Cancelled goes the way of one that was never presented. */
  lemma CancelledIsDropped(q: Pipe, id: LaneID, led: State)
    requires Presentable(q, id)
    requires Admit(q.led, q.hands[id].batch) == (led, Some(Cancelled))
    ensures After(q, Present(id)) == DoDrop(q, id).(led := led)
  {}

  lemma DropsSecond(q: Pipe, b: RecordID)
    requires q.hands == map[0 := MadeSingle(b, 2)] && q.terminal == {} && q.lost == {}
    ensures DoDrop(q, 0) == q.(hands := map[], lost := {Source(0, 2)}, dropped := q.dropped + {0})
  {
    assert Sources(0, map[b := 2]) == {Source(0, 2)} by {
      assert Source(0, map[b := 2][b]) == Source(0, 2);
    }
    assert q.hands - {0} == map[];
  }

  lemma GivesUp(p: Pipe, q: Pipe, a: RecordID, b: RecordID)
    requires One(p, a) && a != b && q == p.(places := map[0 := 2], hands := map[0 := MadeSingle(b, 2)])
    ensures Enabled(q, Present(0)) && Two(After(q, Present(0)), a)
  {
    FullGivesUp(p.led, a, b);
    CancelledIsDropped(q, 0, SetLane(p.led, 0, p.led.lanes[0].(seqno := 2)));
    DropsSecond(q, b);
    assert Full(p.led, a);
  }

  /** The lane was read on. */
  predicate Three(p: Pipe, a: RecordID) {
    && Skips(p.led, a) && p.phase.Idle? && p.readings.Keys == {0} && Source(0, 2) in p.lost && p.cursors == map[]
  }

  lemma ReadsOn(p: Pipe, a: RecordID)
    requires Two(p, a)
    ensures Enabled(p, IDLE) && Enabled(After(p, IDLE), Present(0)) && Three(After(After(p, IDLE), Present(0)), a)
  {
    var s :| Full(s, a) && p.led == SetLane(s, 0, s.lanes[0].(seqno := 2));
    IdleSkips(s, a);
    var none: seq<Rec> := [];
    assert Ids(none) == {};
  }

  lemma Stores(p: Pipe, a: RecordID)
    requires Three(p, a)
    ensures var q := DoTake(DoCall(p, DoSettle([Outcome(a, Delivered)])));
            && q.phase.Offered? && q.phase.m.Keys == {0} && q.phase.m[0].token == 3
            && q.lost == p.lost && q.cursors == map[]
  {
    SkippedOffer(p.led, a, Outcome(a, Delivered));
    OnlyLane(p.led, a);
    TakeSame(DoCall(p, DoSettle([Outcome(a, Delivered)])));
  }

  lemma OnlyLane(s: State, a: RecordID)
    requires Skips(s, a)
    ensures Flushable(Settle(s, [Outcome(a, Delivered)])).1.Keys <= {0}
  {
    F.StepLanes(s, DoSettle([Outcome(a, Delivered)]));
  }

  // ---- the whole run -------------------------------------------------------------------------------------

  /** The run up to the batch that is given up. */
  lemma Begins(a: RecordID, p: Pipe, ms: seq<Move>)
    requires p == Start() && ms == Opening(a)
    ensures AllEnabled(p, ms) && One(Moves(p, ms), a)
  {
    var none: seq<Move> := [];
    Registers(p);
    Extend(p, none, ms[0], ms[..1]);
    ProducesSingle(Moves(p, ms[..1]), a, 0);
    Extend(p, ms[..1], ms[1], ms[..2]);
    TakesFirst(Moves(p, ms[..2]), a);
    Extend(p, ms[..2], ms[2], ms);
  }

  lemma GoesOn(a: RecordID, b: RecordID, p: Pipe, ms: seq<Move>, more: seq<Move>)
    requires AllEnabled(p, ms) && One(Moves(p, ms), a) && a != b
    requires more == ms + [Single(b, 2)] + [Present(0)]
    ensures AllEnabled(p, more) && Two(Moves(p, more), a)
  {
    ProducesSingle(Moves(p, ms), b, 1);
    Extend(p, ms, Single(b, 2), ms + [Single(b, 2)]);
    GivesUp(Moves(p, ms), Moves(p, ms + [Single(b, 2)]), a, b);
    Extend(p, ms + [Single(b, 2)], Present(0), more);
  }

  lemma IsReadOn(a: RecordID, p: Pipe, ms: seq<Move>, more: seq<Move>)
    requires AllEnabled(p, ms) && Two(Moves(p, ms), a) && more == ms + [IDLE] + [Present(0)]
    ensures AllEnabled(p, more) && Three(Moves(p, more), a)
  {
    ReadsOn(Moves(p, ms), a);
    Extend(p, ms, IDLE, ms + [IDLE]);
    Extend(p, ms + [IDLE], Present(0), more);
  }

  lemma Persisted(q: Pipe)
    requires q.phase.Offered? && q.phase.m.Keys == {0} && q.phase.m[0].token == 3 && q.cursors == map[]
    ensures DoPersist(q).cursors == map[0 := 3] && DoPersist(q).lost == q.lost
  {}

  lemma Ends(a: RecordID, p: Pipe, ms: seq<Move>, more: seq<Move>)
    requires AllEnabled(p, ms) && Three(Moves(p, ms), a) && more == ms + Flush(a)
    ensures AllEnabled(p, more)
    ensures Moves(p, more).cursors == map[0 := 3] && Source(0, 2) in Moves(p, more).lost
  {
    var q, settle := Moves(p, ms), Call(DoSettle([Outcome(a, Delivered)]));
    var m1 := ms + [settle];
    var m2 := m1 + [Take];
    assert more == m2 + [Persist];
    Stores(q, a);
    Persisted(DoTake(DoCall(q, settle.op)));
    Extend(p, ms, settle, m1);
    Extend(p, m1, Take, m2);
    Extend(p, m2, Persist, more);
  }

  /**
   Through the pipeline's own moves, every one of them enabled: the second record was produced and
   never taken in, the stored cursor is beyond it, and it has not reached its end.
   */
  lemma ReadingOnLoses(a: RecordID, b: RecordID, p: Pipe, ms: seq<Move>)
    requires a != b && p == Start() && ms == Script(a, b)
    ensures AllEnabled(p, ms)
    ensures var q := Moves(p, ms);
            q.cursors == map[0 := 3] && Source(0, 2) in q.lost && Source(0, 2) !in q.terminal && !Safe(q)
  {
    Begins(a, p, Opening(a));
    GoesOn(a, b, p, Opening(a), Lost(a, b));
    IsReadOn(a, p, Lost(a, b), Lost(a, b) + [IDLE] + [Present(0)]);
    Ends(a, p, Lost(a, b) + [IDLE] + [Present(0)], ms);
    Loses(p, ms);
  }

  lemma Loses(p: Pipe, ms: seq<Move>)
    requires p == Start() && AllEnabled(p, ms)
    requires Moves(p, ms).cursors == map[0 := 3] && Source(0, 2) in Moves(p, ms).lost
    ensures Source(0, 2) !in Moves(p, ms).terminal && !Safe(Moves(p, ms))
  {
    StartInv();
    MovesApart(p, ms);
    SafeUnlessLost(ms);
  }
}
