/**
 The commit rule: what waits to be flushed is the last safe position of the resolved prefix. The ledger looks
 only at the position where an advance ends, so the rule fails when an advance passes a safe position and
 ends at one that is not.
 */
module LedgerSafe {
  import opened Wrappers
  import opened Records
  import opened LedgerSpec
  import opened LedgerInv
  import opened LedgerRuns
  import opened LedgerEpochs
  import opened LedgerLeaks
  import F = LedgerFence
  import O = LedgerOffers
  import T = TrackerSpec

  // ---- the rule ------------------------------------------------------------------------------------------

  /** The last safe position among the first r admissions. */
  function LastSafe(log: T.Log<Position>, r: nat): Option<Position>
    requires r <= |log|
  {
    if r == 0 then None
    else if log[r - 1].payload.safe then Some(log[r - 1].payload)
    else LastSafe(log, r - 1)
  }

  /** The last position that has waited to be flushed, if it was w before. */
  function Waited(w: Option<Position>, st: Lane): Option<Position> {
    if st.pendingFlush.Some? then st.pendingFlush else w
  }

  function WaitedIn(ops: seq<Op>, id: LaneID): Option<Position> {
    if ops == [] then None
    else
      var w, s := WaitedIn(ops[..|ops| - 1], id), Exec(Initial(), ops);
      if id in s.lanes then Waited(w, s.lanes[id]) else w
  }

  predicate Ruled(st: Lane, w: Option<Position>) { w == LastSafe(st.log, T.Run(st.log)) }

  /** After the run, the last position that has waited is the last safe one of the prefix. */
  predicate RuleHolds(ops: seq<Op>, id: LaneID) {
    id in Exec(Initial(), ops).lanes && Ruled(Exec(Initial(), ops).lanes[id], WaitedIn(ops, id))
  }

  /** Beyond the prefix there is a safe position, and behind it an unsafe one where the prefix may come to end. */
  predicate Skips(log: T.Log<Position>, i: nat, j: nat) {
    && T.Run(log) <= i < j < |log|
    && log[i].payload.safe && !log[j].payload.safe && Ends(log, j)
  }

  ghost predicate Skippable(log: T.Log<Position>) {
    exists i: nat, j: nat :: Skips(log, i, j)
  }

  lemma {:induction false} LastSafeSame(log: T.Log<Position>, l: T.Log<Position>, r: nat)
    requires r <= |log| && r <= |l| && forall i :: 0 <= i < r ==> l[i].payload == log[i].payload
    ensures LastSafe(l, r) == LastSafe(log, r)
  {
    if r == 0 {
    } else {
      LastSafeSame(log, l, r - 1);
    }
  }

  lemma {:induction false} NoneSafe(log: T.Log<Position>, r: nat, n: nat)
    requires r <= n <= |log| && forall i :: r <= i < n ==> !log[i].payload.safe
    ensures LastSafe(log, n) == LastSafe(log, r)
    decreases n - r
  {
    if r == n {
    } else {
      NoneSafe(log, r, n - 1);
    }
  }

  /** A safe position at i is not passed over. */
  lemma {:induction false} SafeCounts(log: T.Log<Position>, i: nat, n: nat)
    requires i < n <= |log| && log[i].payload.safe
    ensures exists k :: i <= k < n && LastSafe(log, n) == Some(log[k].payload) && log[k].payload.safe
    decreases n - i
  {
    if !log[n - 1].payload.safe {
      SafeCounts(log, i, n - 1);
    }
  }

  // ---- one advance ---------------------------------------------------------------------------------------

  /** The same positions, with more of them resolved. */
  predicate Further(log: T.Log<Position>, l: T.Log<Position>) {
    && |l| == |log| && T.Run(log) <= T.Run(l)
    && forall i :: 0 <= i < |log| ==> l[i].payload == log[i].payload && (log[i].Resolved() ==> l[i].Resolved())
  }

  lemma FurtherSkips(log: T.Log<Position>, l: T.Log<Position>)
    requires Further(log, l) && !Skippable(log)
    ensures !Skippable(l)
  {
    forall i: nat, j: nat
      ensures !Skips(l, i, j)
    {
      assert !Skips(log, i, j);
    }
  }

  function Heard(w: Option<Position>, a: Option<Position>): Option<Position> {
    if a.Some? && a.value.safe then a else w
  }

  lemma AdvanceRuled(log: T.Log<Position>, l: T.Log<Position>)
    requires Further(log, l) && !Skippable(log)
    ensures LastSafe(l, T.Run(l)) == Heard(LastSafe(log, T.Run(log)), T.Advance(log, l))
  {
    var r, n := T.Run(log), T.Run(l);
    T.RunSpec(l);
    LastSafeSame(log, l, r);
    if n > r && !l[n - 1].payload.safe {
      forall i: nat | r <= i < n
        ensures !l[i].payload.safe
      {
        assert !Skips(log, i, n - 1);
      }
      NoneSafe(l, r, n);
    }
  }

  // ---- admission -----------------------------------------------------------------------------------------

  /** A safe position waits beyond the prefix. */
  predicate SafeWaits(st: Lane) {
    exists i :: T.Run(st.log) <= i < |st.log| && st.log[i].payload.safe
  }

  /** The lane has a prefix, was never revoked, and nothing in it can be skipped; it keeps the rule. */
  ghost predicate Tidy(st: Lane, w: Option<Position>) {
    && st.ordering == Prefix && st.fencedThrough == 0
    && !Skippable(st.log)
    && (st.pendingFlush.Some? ==> w == st.pendingFlush)
    && Ruled(st, w)
  }

  lemma AppendSkips(log: T.Log<Position>, e: T.Entry<Position>)
    requires !Skippable(log) && T.Run(log) <= T.Run(log + [e])
    requires e.payload.safe || forall i :: T.Run(log) <= i < |log| ==> !log[i].payload.safe
    ensures !Skippable(log + [e])
  {
    forall i: nat, j: nat
      ensures !Skips(log + [e], i, j)
    {
      assert !Skips(log, i, j);
    }
  }

  /** A resolved entry at the end moves the prefix when everything before it is resolved. */
  lemma IdleRuled(log: T.Log<Position>, pos: Position)
    ensures var l := T.TrackResolved(log, pos);
            && T.Run(log) <= T.Run(l)
            && LastSafe(l, T.Run(l)) == Heard(LastSafe(log, T.Run(log)), T.Advance(log, l))
  {
    var l := T.TrackResolved(log, pos);
    T.RunTrackResolved(log, pos);
    LastSafeSame(log, l, T.Run(log));
  }

  lemma IdleHeard(st: Lane, pos: Position, a: Admission)
    ensures var t := AdmitIdle(st, pos, a);
            && t.log == T.TrackResolved(st.log, pos)
            && t.pendingFlush == Heard(st.pendingFlush, T.Advance(st.log, t.log))
            && t.ordering == st.ordering && t.fencedThrough == st.fencedThrough
  {}

  lemma IdleTidy(st: Lane, w: Option<Position>, pos: Position, t: Lane)
    requires Tidy(st, w) && (pos.safe || !SafeWaits(st)) && t.log == T.TrackResolved(st.log, pos)
    requires t.pendingFlush == Heard(st.pendingFlush, T.Advance(st.log, t.log))
    requires t.ordering == st.ordering && t.fencedThrough == st.fencedThrough
    ensures Tidy(t, Waited(w, t))
  {
    IdleRuled(st.log, pos);
    AppendSkips(st.log, T.Entry(pos, 0, 0, false));
  }

  /** Only what the rule speaks of. */
  predicate SameRule(st: Lane, t: Lane) {
    && t.log == st.log && t.ordering == st.ordering && t.fencedThrough == st.fencedThrough
    && t.pendingFlush == st.pendingFlush
  }

  lemma TrackTidy(st: Lane, w: Option<Position>, t: Lane, pos: Position, n: nat)
    requires Tidy(st, w) && (pos.safe || !SafeWaits(st)) && t.log == T.Track(st.log, pos, n, n)
    requires SameRule(st.(log := t.log), t)
    ensures Tidy(t, Waited(w, t))
  {
    T.RunTrack(st.log, pos, n, n);
    AppendSkips(st.log, T.Entry(pos, T.AtLeastOne(n), T.AtLeastOne(n), false));
    LastSafeSame(st.log, t.log, T.Run(st.log));
  }

  lemma HeldTidy(s: State, b: Batch, w: Option<Position>)
    requires b.lane in s.lanes && Tidy(s.lanes[b.lane], w) && (b.pos.safe || !SafeWaits(s.lanes[b.lane]))
    requires AdmitHeld(s, b).1 != Some(DuplicateGroup)
    ensures var s' := AdmitHeld(s, b).0; b.lane in s'.lanes && Tidy(s'.lanes[b.lane], Waited(w, s'.lanes[b.lane]))
  {
    var pos := Stamp(s, b);
    var st := s.lanes[b.lane].(seqno := pos.seqno);
    assert Tidy(st, w) && (pos.safe || !SafeWaits(st));
    if b.records == [] {
      IdleHeard(st, pos, Admission(Empty, {}, {}, st.epoch));
      IdleTidy(st, w, pos, AdmitIdle(st, pos, Admission(Empty, {}, {}, st.epoch)));
    } else if T.Admits(st.log, st.budget, |b.records|) {
      TrackTidy(st, w, OpenGroup(s, st, b, pos).0.lanes[b.lane], pos, |b.records|);
    } else if Sheds(st.whenFull) {
      IdleHeard(st, pos, Admission(Shed, Ids(b.records), Ids(b.records), st.epoch));
      IdleTidy(st, w, pos, ShedBatch(st, b, pos));
    }
  }

  // ---- settlement ----------------------------------------------------------------------------------------

  /** The last safe one of the advances of the lane, if it was w before. */
  function HeardAll(w: Option<Position>, advances: seq<Advance>, id: LaneID): Option<Position> {
    if advances == [] then w
    else
      var h, a := HeardAll(w, advances[..|advances| - 1], id), advances[|advances| - 1];
      if a.lane == id then Heard(h, Some(a.pos)) else h
  }

  lemma HeardNext(w: Option<Position>, advances: seq<Advance>, more: seq<Advance>, id: LaneID)
    requires |more| <= 1
    ensures HeardAll(w, advances + more, id) ==
            if more != [] && more[0].lane == id then Heard(HeardAll(w, advances, id), Some(more[0].pos))
            else HeardAll(w, advances, id)
  {
    if more == [] {
      assert advances + more == advances;
    } else {
      assert (advances + more)[..|advances|] == advances;
    }
  }

  lemma {:induction false} HeardLater(w: Option<Position>, p: Option<Position>, advances: seq<Advance>, id: LaneID)
    requires p.Some? ==> w == p
    ensures HeardAll(w, advances, id) == if HeardAll(p, advances, id).Some? then HeardAll(p, advances, id) else w
  {
    if advances == [] {
    } else {
      HeardLater(w, p, advances[..|advances| - 1], id);
    }
  }

  /** The rule, with the advances that are still to be published. */
  ghost predicate Follows(s: State, id: LaneID, w: Option<Position>, advances: seq<Advance>) {
    && id in s.lanes && s.lanes[id].ordering == Prefix && s.lanes[id].fencedThrough == 0
    && !Skippable(s.lanes[id].log)
    && Ruled(s.lanes[id], HeardAll(w, advances, id))
  }

  lemma OutcomeFurther(st: Lane, g: Group, o: Outcome)
    requires LaneOK(st) && GroupOK(st, g) && st.pending > 0 && o.record in st.history.admissions[g.ticket].left
    ensures var t := LaneAfter(st, g, o);
            && Further(st.log, t.log) && t.log == Noted(st, g, o).log && LaneQuiet(st, t) && t.ordering == st.ordering
  {
    NotedEntry(st, g, o);
    AfterSteady(st, g, o);
    LaneAfterQuiet(st, g, o);
  }

  lemma SettleOneFollows(s: State, o: Outcome, id: LaneID, w: Option<Position>, before: seq<Advance>)
    requires Inv(s) && Follows(s, id, w, before)
    ensures Follows(SettleOne(s, o).0, id, w, before + SettleOne(s, o).1)
    ensures SettleOne(s, o).0.lanes[id].pendingFlush == s.lanes[id].pendingFlush
  {
    var (s', a) := SettleOne(s, o);
    HeardNext(w, before, a, id);
    if Settles(s, o) {
      var g := s.groups[s.byRec[o.record]];
      if g.lane == id {
        OutcomeFurther(s.lanes[id], g, o);
        AdvanceRuled(s.lanes[id].log, s'.lanes[id].log);
        FurtherSkips(s.lanes[id].log, s'.lanes[id].log);
      } else {
        OtherLane(s, o, id);
      }
    }
  }

  lemma {:induction false} SettleAllFollows(s: State, outs: seq<Outcome>, id: LaneID, w: Option<Position>)
    requires Inv(s) && Follows(s, id, w, [])
    ensures var (s', a) := SettleAll(s, outs);
            Follows(s', id, w, a) && s'.lanes[id].pendingFlush == s.lanes[id].pendingFlush
  {
    if outs == [] {
    } else {
      var (s1, a1) := SettleAll(s, outs[..|outs| - 1]);
      SettleAllKeeps(s, outs[..|outs| - 1]);
      SettleAllFollows(s, outs[..|outs| - 1], id, w);
      SettleOneFollows(s1, outs[|outs| - 1], id, w, a1);
    }
  }

  lemma {:induction false} PublishAllHeard(s: State, advances: seq<Advance>, id: LaneID)
    requires id in s.lanes
    ensures var s' := PublishAll(s, advances);
            && id in s'.lanes && SameAdmissions(s.lanes[id], s'.lanes[id])
            && s'.lanes[id].fencedThrough == s.lanes[id].fencedThrough
            && s'.lanes[id].pendingFlush == HeardAll(s.lanes[id].pendingFlush, advances, id)
  {
    if advances == [] {
    } else {
      PublishAllHeard(s, advances[..|advances| - 1], id);
    }
  }

  lemma SettleTidy(s: State, outs: seq<Outcome>, id: LaneID, w: Option<Position>)
    requires Inv(s) && id in s.lanes && Tidy(s.lanes[id], w)
    ensures var s' := Settle(s, outs); id in s'.lanes && Tidy(s'.lanes[id], Waited(w, s'.lanes[id]))
  {
    var (s1, advances) := SettleAll(s, outs);
    SettleAllFollows(s, outs, id, w);
    PublishAllHeard(s1, advances, id);
    HeardLater(w, s.lanes[id].pendingFlush, advances, id);
  }

  // ---- runs ----------------------------------------------------------------------------------------------

  /**
   The lane's source is careful: no batch reuses a group in flight, and one with an unsafe position comes
   only when no safe position waits beyond the prefix.
   */
  predicate Careful(s: State, op: Op, id: LaneID) {
    op.DoAdmit? && op.batch.lane == id && id in s.lanes && KindOf(op.batch, Admit(s, op.batch).1).Some? ==>
      Admit(s, op.batch).1 != Some(DuplicateGroup) && (op.batch.pos.safe || !SafeWaits(s.lanes[id]))
  }

  predicate AllCareful(ops: seq<Op>, id: LaneID) {
    ops == [] || (AllCareful(ops[..|ops| - 1], id)
                  && Careful(Exec(Initial(), ops[..|ops| - 1]), ops[|ops| - 1], id))
  }

  lemma AdmitTidy(s: State, b: Batch, id: LaneID, w: Option<Position>)
    requires id in s.lanes && Tidy(s.lanes[id], w) && Careful(s, DoAdmit(b), id)
    ensures var s' := Admit(s, b).0; id in s'.lanes && Tidy(s'.lanes[id], Waited(w, s'.lanes[id]))
  {
    if id == b.lane && Admit(s, b).0 != s {
      if KindOf(b, AdmitHeld(s, b).1).Some? {
        HeldTidy(s, b, w);
      } else {
        NoMove(s, b);
      }
    } else if b.lane in s.lanes {
      F.HeldFence(s, b);
    }
  }

  lemma StepTidy(s: State, op: Op, id: LaneID, w: Option<Position>)
    requires Inv(s) && id in s.lanes && Tidy(s.lanes[id], w) && Careful(s, op, id)
    requires id in Step(s, op).lanes && Step(s, op).lanes[id].fencedThrough == 0
    ensures Tidy(Step(s, op).lanes[id], Waited(w, Step(s, op).lanes[id]))
  {
    if op.DoAdmit? {
      AdmitTidy(s, op.batch, id, w);
    } else if op.DoSettle? {
      SettleTidy(s, op.outcomes, id, w);
    } else {
      QuietKept(s, op, id);
    }
  }

  lemma StepFence(s: State, op: Op, id: LaneID)
    requires Inv(s) && id in s.lanes
    ensures id in Step(s, op).lanes && s.lanes[id].fencedThrough <= Step(s, op).lanes[id].fencedThrough
  {
    if op.DoSettle? {
      SettleFence(s, op.outcomes, id);
    } else if op.DoAdmit? {
      F.AdmitFence(s, op.batch, id);
    } else {
      QuietKept(s, op, id);
    }
  }

  lemma SettleFence(s: State, outs: seq<Outcome>, id: LaneID)
    requires id in s.lanes
    ensures id in Settle(s, outs).lanes && Settle(s, outs).lanes[id].fencedThrough == s.lanes[id].fencedThrough
  {
    SettleAllFence(s, outs, id);
    F.PublishFence(SettleAll(s, outs).0, SettleAll(s, outs).1, id);
  }

  lemma {:induction false} SettleAllFence(s: State, outs: seq<Outcome>, id: LaneID)
    requires id in s.lanes
    ensures var s' := SettleAll(s, outs).0; id in s'.lanes && s'.lanes[id].fencedThrough == s.lanes[id].fencedThrough
  {
    if outs == [] {
    } else {
      SettleAllFence(s, outs[..|outs| - 1], id);
    }
  }

  lemma {:induction false} NoneWaited(ops: seq<Op>, id: LaneID)
    requires id !in Exec(Initial(), ops).lanes
    ensures WaitedIn(ops, id) == None
  {
    if ops == [] {
    } else {
      var init := ops[..|ops| - 1];
      InitialInv();
      ExecKeeps(Initial(), init);
      if id in Exec(Initial(), init).lanes {
        StepGrows(Exec(Initial(), init), ops[|ops| - 1], id);
      }
      NoneWaited(init, id);
    }
  }

  lemma NewTidy(ordering: Ordering, budget: nat, whenFull: WhenFull)
    requires ordering == Prefix
    ensures Tidy(NewLane(ordering, budget, whenFull), None)
  {}

  lemma {:induction false} ExecTidy(ops: seq<Op>, id: LaneID)
    requires id in Exec(Initial(), ops).lanes && AllCareful(ops, id)
    requires Exec(Initial(), ops).lanes[id].ordering == Prefix && Exec(Initial(), ops).lanes[id].fencedThrough == 0
    ensures Tidy(Exec(Initial(), ops).lanes[id], WaitedIn(ops, id))
  {
    var init, op := ops[..|ops| - 1], ops[|ops| - 1];
    var s := Exec(Initial(), init);
    InitialInv();
    ExecKeeps(Initial(), init);
    if id in s.lanes {
      StepGrows(s, op, id);
      StepFence(s, op, id);
      ExecTidy(init, id);
      StepTidy(s, op, id, WaitedIn(init, id));
    } else {
      F.Joins(s, op, id);
      NoneWaited(init, id);
      NewTidy(op.ordering, if op.budget < 1 then op.dflt else op.budget, op.whenFull);
    }
  }

  /**
   Over every run of a lane with a careful source that was never revoked, the last position that has waited
   to be flushed is the last safe one of the resolved prefix.
   */
  lemma LastSafeWaits(ops: seq<Op>, id: LaneID)
    requires id in Exec(Initial(), ops).lanes && AllCareful(ops, id)
    requires Exec(Initial(), ops).lanes[id].ordering == Prefix && Exec(Initial(), ops).lanes[id].fencedThrough == 0
    ensures RuleHolds(ops, id)
  {
    ExecTidy(ops, id);
  }

  // ---- how the rule is broken ------------------------------------------------------------------------------

  /** None of the advances is a safe position of the lane. */
  predicate Unheard(advances: seq<Advance>, id: LaneID) {
    forall i :: 0 <= i < |advances| ==> advances[i].lane != id || !advances[i].pos.safe
  }

  lemma UnheardNext(advances: seq<Advance>, a: Advance, id: LaneID)
    requires (forall i :: 0 <= i < |advances| ==> advances[i].lane != id) && !a.pos.safe
    ensures Unheard(advances + [a], id)
  {}

  lemma {:induction false} NoneHeard(w: Option<Position>, advances: seq<Advance>, id: LaneID)
    requires Unheard(advances, id)
    ensures HeardAll(w, advances, id) == w
  {
    if advances == [] {
    } else {
      NoneHeard(w, advances[..|advances| - 1], id);
    }
  }

  /** While the first unresolved admission stays unresolved, nothing of the lane is published. */
  lemma HeldBack(s: State, outs: seq<Outcome>, id: LaneID)
    requires Inv(s) && id in s.lanes
    requires var s' := SettleAll(s, outs).0; id in s'.lanes && T.Run(s'.lanes[id].log) <= T.Run(s.lanes[id].log)
    ensures forall i :: 0 <= i < |SettleAll(s, outs).1| ==> SettleAll(s, outs).1[i].lane != id
  {
    var (s', advances) := SettleAll(s, outs);
    var n := T.Run(s.lanes[id].log);
    O.SettleAllLate(s, outs, id, s.lanes[id].pendingFlush, n);
    forall i | 0 <= i < |advances|
      ensures advances[i].lane != id
    {
      assert advances[i].lane == id ==> O.Late(s'.lanes[id], advances[i].pos, n);
    }
  }

  /** The first unresolved admission is still the first. */
  lemma FirstSpared(s: State, s1: State, id: LaneID, n: nat)
    requires Inv(s) && id in s.lanes && T.Run(s.lanes[id].log) < n <= |s.lanes[id].log|
    requires Cleared(s, s1, id, T.Run(s.lanes[id].log), n)
    ensures T.Run(s1.lanes[id].log) <= T.Run(s.lanes[id].log)
  {
    var r := T.Run(s.lanes[id].log);
    T.RunSpec(s.lanes[id].log);
    T.RunSpec(s1.lanes[id].log);
    assert Kept(s.lanes[id], s1.lanes[id], r);
  }

  /** The outcomes: everything up to j, the first unresolved admission last. */
  lemma SkippingOutcomes(s: State, id: LaneID, i: nat, j: nat) returns (outs: seq<Outcome>)
    requires Inv(s) && id in s.lanes && AllInFlight(s, id) && Skips(s.lanes[id].log, i, j)
    requires s.lanes[id].ordering == Prefix && s.lanes[id].fencedThrough == 0
    ensures var (s', moved) := SettleAll(s, outs);
            && id in s'.lanes && Steady(s.lanes[id], s'.lanes[id]) && T.Run(s'.lanes[id].log) == j + 1
            && Unheard(moved, id)
  {
    var r := T.Run(s.lanes[id].log);
    ReachesFirst(s.lanes[id], i, j);
    var first := ClearedFirst(s, id, j + 1);
    outs := LeakLast(s, first, SettleAll(s, first).0, id, r, j);
    UnheardNext(SettleAll(s, first).1, Advance(id, s.lanes[id].log[j].payload), id);
  }

  lemma ReachesFirst(st: Lane, i: nat, j: nat)
    requires LaneOK(st) && st.ordering == Prefix && st.fencedThrough == 0 && Skips(st.log, i, j)
    ensures T.Run(st.log) < j < |st.log| == |st.history.admissions| && Reaches(st, T.Run(st.log), j)
  {
    T.RunSpec(st.log);
  }

  /** Outcomes for everything before n but the first unresolved admission publish nothing of the lane. */
  lemma ClearedFirst(s: State, id: LaneID, n: nat) returns (outs: seq<Outcome>)
    requires Inv(s) && id in s.lanes && AllInFlight(s, id) && T.Run(s.lanes[id].log) < n <= |s.lanes[id].log|
    ensures Cleared(s, SettleAll(s, outs).0, id, T.Run(s.lanes[id].log), n)
    ensures forall k :: 0 <= k < |SettleAll(s, outs).1| ==> SettleAll(s, outs).1[k].lane != id
  {
    outs := DrainUpTo(s, id, T.Run(s.lanes[id].log), n);
    FirstSpared(s, SettleAll(s, outs).0, id, n);
    HeldBack(s, outs, id);
  }

  /** What waits is what waited before, and the prefix now has a safe position beyond it. */
  lemma SkippedBreaks(st: Lane, t: Lane, w: Option<Position>, i: nat, j: nat)
    requires LaneOK(st) && Skips(st.log, i, j) && Ruled(st, w) && Steady(st, t) && T.Run(t.log) == j + 1
    ensures !Ruled(t, w)
  {
    var r := T.Run(st.log);
    LastSafeSame(st.log, t.log, j + 1);
    SafeCounts(st.log, i, j + 1);
    var k :| i <= k < j + 1 && LastSafe(st.log, j + 1) == Some(st.log[k].payload) && st.log[k].payload.safe;
    if LastSafe(st.log, r).Some? {
      var m := LastSafeAt(st.log, r);
      assert Before(st.log, m, k);
    }
  }

  lemma {:induction false} LastSafeAt(log: T.Log<Position>, r: nat) returns (k: nat)
    requires r <= |log| && LastSafe(log, r).Some?
    ensures k < r && LastSafe(log, r) == Some(log[k].payload)
  {
    if log[r - 1].payload.safe {
      k := r - 1;
    } else {
      k := LastSafeAt(log, r - 1);
    }
  }

  lemma SkippedUnheard(s: State, outs: seq<Outcome>, id: LaneID, w: Option<Position>)
    requires id in s.lanes && (s.lanes[id].pendingFlush.Some? ==> w == s.lanes[id].pendingFlush)
    requires var (s', moved) := SettleAll(s, outs);
             && id in s'.lanes && s'.lanes[id].pendingFlush == s.lanes[id].pendingFlush
             && Unheard(moved, id)
    ensures var s' := Settle(s, outs);
            && id in s'.lanes && SameAdmissions(SettleAll(s, outs).0.lanes[id], s'.lanes[id])
            && Waited(w, s'.lanes[id]) == w
  {
    var (s1, moved) := SettleAll(s, outs);
    PublishAllHeard(s1, moved, id);
    NoneHeard(s1.lanes[id].pendingFlush, moved, id);
  }

  lemma SkippingBreaks(s: State, id: LaneID, w: Option<Position>, i: nat, j: nat) returns (outs: seq<Outcome>)
    requires Inv(s) && id in s.lanes && AllInFlight(s, id) && Skips(s.lanes[id].log, i, j)
    requires s.lanes[id].ordering == Prefix && s.lanes[id].fencedThrough == 0
    requires Ruled(s.lanes[id], w) && (s.lanes[id].pendingFlush.Some? ==> w == s.lanes[id].pendingFlush)
    ensures var s' := Settle(s, outs); id in s'.lanes && !Ruled(s'.lanes[id], Waited(w, s'.lanes[id]))
  {
    outs := SkippingOutcomes(s, id, i, j);
    assert LaneOK(s.lanes[id]);
    O.SettleAllLate(s, outs, id, s.lanes[id].pendingFlush, T.Run(s.lanes[id].log));
    SkippedUnheard(s, outs, id, w);
    SkippedBreaks(s.lanes[id], SettleAll(s, outs).0.lanes[id], w, i, j);
  }

  lemma SettleHolds(ops: seq<Op>, outs: seq<Outcome>, id: LaneID)
    requires id in Exec(Initial(), ops).lanes
    ensures var s := Settle(Exec(Initial(), ops), outs);
            && Exec(Initial(), ops + [DoSettle(outs)]) == s
            && (id in s.lanes ==>
                  (RuleHolds(ops + [DoSettle(outs)], id) <==>
                   Ruled(s.lanes[id], Waited(WaitedIn(ops, id), s.lanes[id]))))
  {
    var more := ops + [DoSettle(outs)];
    assert more[..|ops|] == ops;
  }

  lemma WaitedLatest(ops: seq<Op>, id: LaneID)
    requires id in Exec(Initial(), ops).lanes && Exec(Initial(), ops).lanes[id].pendingFlush.Some?
    ensures WaitedIn(ops, id) == Exec(Initial(), ops).lanes[id].pendingFlush
  {}

  /**
   For every run that has kept the rule so far, with the lane's records all in flight: there is no safe
   position to skip if and only if no outcomes, in whatever order they come, break the rule.
   */
  lemma SkipIsExact(ops: seq<Op>, id: LaneID)
    requires RuleHolds(ops, id) && AllInFlight(Exec(Initial(), ops), id)
    requires Exec(Initial(), ops).lanes[id].ordering == Prefix && Exec(Initial(), ops).lanes[id].fencedThrough == 0
    ensures !Skippable(Exec(Initial(), ops).lanes[id].log) <==>
            forall outs: seq<Outcome> :: RuleHolds(ops + [DoSettle(outs)], id)
  {
    var s, w := Exec(Initial(), ops), WaitedIn(ops, id);
    InitialInv();
    ExecKeeps(Initial(), ops);
    if s.lanes[id].pendingFlush.Some? {
      WaitedLatest(ops, id);
    }
    if Skippable(s.lanes[id].log) {
      var i: nat, j: nat :| Skips(s.lanes[id].log, i, j);
      var outs := SkippingBreaks(s, id, w, i, j);
      SettleHolds(ops, outs, id);
    } else {
      forall outs: seq<Outcome>
        ensures RuleHolds(ops + [DoSettle(outs)], id)
      {
        SettleTidy(s, outs, id, w);
        SettleHolds(ops, outs, id);
      }
    }
  }

  // ---- a run ---------------------------------------------------------------------------------------------

  /** A record with position p, an idle position q behind it, then the record's outcome. */
  function Opening(r: Rec, p: Position): seq<Op> {
    [DoRegister(0, Prefix, 10, Block, 10)] + [DoAdmit(Batch(0, 0, [r], p))]
  }

  function Passing(r: Rec, p: Position, q: Position): seq<Op> {
    Opening(r, p) + [DoAdmit(Batch(0, 1, [], q))] + [DoSettle([Outcome(r.id, Delivered)])]
  }

  /** Nothing has waited so far, and the lane is as given. */
  predicate Stands(ops: seq<Op>, r: Rec, log: T.Log<Position>) {
    var s := Exec(Initial(), ops);
    && WaitedIn(ops, 0) == None
    && 0 in s.lanes && 0 in s.groups && s.byRec == map[r.id := 0]
    && var st, g := s.lanes[0], s.groups[0];
       && st.log == log && |st.history.admissions| == |log| == st.seqno && st.pendingFlush == None
       && st.ordering == Prefix && st.fencedThrough == 0 && st.pending == 1
       && g.lane == 0 && g.ticket == 0 && g.refs == 1 && g.settled == 0
  }

  lemma NextStep(ops: seq<Op>, op: Op, id: LaneID)
    ensures var s := Step(Exec(Initial(), ops), op);
            && Exec(Initial(), ops + [op]) == s
            && WaitedIn(ops + [op], id) ==
               if id in s.lanes then Waited(WaitedIn(ops, id), s.lanes[id]) else WaitedIn(ops, id)
  {
    assert (ops + [op])[..|ops|] == ops;
  }

  lemma OpeningStands(r: Rec, p: Position)
    requires r.lane == 0
    ensures Stands(Opening(r, p), r, [T.Entry(p.(seqno := 1), 1, 1, false)])
  {
    var none: seq<Op>, register := [], DoRegister(0, Prefix, 10, Block, 10);
    assert none + [register] == [register];
    NextStep(none, register, 0);
    NextStep([register], DoAdmit(Batch(0, 0, [r], p)), 0);
    assert Ids([r]) == {r.id};
  }

  lemma IdleStands(ops: seq<Op>, r: Rec, p: Position, q: Position)
    requires Stands(ops, r, [T.Entry(p.(seqno := 1), 1, 1, false)])
    ensures Stands(ops + [DoAdmit(Batch(0, 1, [], q))], r,
                   [T.Entry(p.(seqno := 1), 1, 1, false), T.Entry(q.(seqno := 2), 0, 0, false)])
  {
    var log := [T.Entry(p.(seqno := 1), 1, 1, false)];
    NextStep(ops, DoAdmit(Batch(0, 1, [], q)), 0);
    T.RunUnique(log, 0);
    T.RunTrackResolved(log, q.(seqno := 2));
  }

  lemma PassedLane(st: Lane, g: Group, p: Position, q: Position, o: Outcome)
    requires st.log == [T.Entry(p, 1, 1, false), T.Entry(q, 0, 0, false)] && |st.history.admissions| == 2
    requires st.ordering == Prefix && st.fencedThrough == 0 && st.pending == 1 && o.disposition == Delivered
    requires g.lane == 0 && g.ticket == 0 && g.refs == 1 && g.settled == 0
    ensures var t := LaneAfter(st, g, o);
            && t.log == [T.Entry(p, 1, 0, false), T.Entry(q, 0, 0, false)] && T.Run(t.log) == 2
            && t.pendingFlush == st.pendingFlush && AdvancesOf(st, g, o) == [Advance(0, q)]
  {
    T.RunUnique(st.log, 0);
    var l := Noted(st, g, o).log;
    assert l == st.log[0 := st.log[0].(refs := 0)];
    T.RunUnique(l, 2);
    CloseQuiet(Noted(st, g, o), SettleGroup(g, o));
  }

  lemma PassedStep(s: State, r: Rec, p: Position, q: Position)
    requires !q.safe && 0 in s.lanes && 0 in s.groups && s.byRec == map[r.id := 0]
    requires var st, g := s.lanes[0], s.groups[0];
             && st.log == [T.Entry(p, 1, 1, false), T.Entry(q, 0, 0, false)]
             && |st.history.admissions| == 2 && st.pendingFlush == None
             && st.ordering == Prefix && st.fencedThrough == 0 && st.pending == 1
             && g.lane == 0 && g.ticket == 0 && g.refs == 1 && g.settled == 0
    ensures var s' := Settle(s, [Outcome(r.id, Delivered)]);
            && 0 in s'.lanes && s'.lanes[0].pendingFlush == None
            && s'.lanes[0].log == [T.Entry(p, 1, 0, false), T.Entry(q, 0, 0, false)] && T.Run(s'.lanes[0].log) == 2
  {
    var o := Outcome(r.id, Delivered);
    PassedLane(s.lanes[0], s.groups[0], p, q, o);
    SettleSingle(s, [o], Advance(0, q));
  }

  /** Every admission of the lane is resolved, the first is a safe position, and nothing has ever waited. */
  lemma SafePassedOver(r: Rec, p: Position, q: Position)
    requires r.lane == 0 && p.safe && !q.safe
    ensures var s := Exec(Initial(), Passing(r, p, q));
            && 0 in s.lanes && T.Run(s.lanes[0].log) == |s.lanes[0].log| == 2 && s.lanes[0].log[0].payload.safe
            && WaitedIn(Passing(r, p, q), 0) == None && 0 !in Flushable(s).1
            && !RuleHolds(Passing(r, p, q), 0)
  {
    var ops := Opening(r, p) + [DoAdmit(Batch(0, 1, [], q))];
    OpeningStands(r, p);
    IdleStands(Opening(r, p), r, p, q);
    PassedStep(Exec(Initial(), ops), r, p.(seqno := 1), q.(seqno := 2));
    NextStep(ops, DoSettle([Outcome(r.id, Delivered)]), 0);
    var log := Exec(Initial(), Passing(r, p, q)).lanes[0].log;
    SafeCounts(log, 0, 2);
  }
}
