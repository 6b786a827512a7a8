/** An announcer that fails to register a known lane leaves the new lanes beside it unread. */
module LaneMissed {
  import opened Records
  import opened LaneTableSpec
  import opened LaneTable
  import opened LaneWatch
  import Runs = LedgerRuns

  /** A supervisor waits, nobody writes, and the table and the ledger know the lane. */
  predicate Quiet(s: State, a: LaneID) {
    && Agrees(s) && s.writer.Free? && s.notifying == []
    && s.supervisor.Parked? && s.supervisor.channel == s.changes
    && a in s.lanes && a in s.led.lanes
  }

  /** A new lane that waits for nothing. */
  predicate Ungated(s: State, b: LaneID, sp: Spec) {
    b !in s.lanes && b !in s.finishPending && b !in s.supervisor.owned && sp.startAfter == []
  }

  function Pair(a: LaneID, b: LaneID, sp: Spec): map<LaneID, Spec> { map[a := sp, b := sp] }

  /** The known lane first, then the new one. */
  function Regs(a: Reg, b: LaneID): seq<Reg> { [a, a.(lane := b)] }

  lemma BeginsPair(s: State, a: Reg, b: LaneID, sp: Spec)
    requires Quiet(s, a.lane) && Ungated(s, b, sp)
    ensures Enabled(s, AnnounceBegin(Pair(a.lane, b, sp), Regs(a, b)))
    ensures Next(s, AnnounceBegin(Pair(a.lane, b, sp), Regs(a, b))) ==
            s.(writer := Announcing(map[b := sp], Regs(a, b), Unsent))
  {
    var regs, specs := Regs(a, b), Pair(a.lane, b, sp);
    assert regs[0] in regs && regs[1] in regs;
    assert (set r | r in regs :: r.lane) == specs.Keys;
    assert Added(specs, s.lanes) == map[b := sp];
    assert b in Added(specs, s.lanes);
    assert a.lane in specs;
  }

  /** The row lands, and the lane is in the table. */
  lemma LandsOne(s: State, regs: seq<Reg>, b: LaneID, sp: Spec)
    requires Agrees(s) && b !in s.lanes && s.writer == Announcing(map[b := sp], regs, Unsent)
    ensures var t := DoWrite(s, true);
            && Settled(t.writer) && b in t.store
            && DoApply(t) == t.(lanes := s.lanes[b := Fresh(sp)], versions := s.versions[b := 1],
                                writer := Announced({b}, regs))
            && t == s.(store := t.store, writer := t.writer)
  {
    AnnounceAccepted(s);
    assert s.lanes + FreshRows(map[b := sp]) == s.lanes[b := Fresh(sp)];
    assert s.versions + FirstVersions(map[b := sp]) == s.versions[b := 1];
    assert map[b := sp].Keys == {b};
  }

  /** The four steps of the announcement, up to its failure. */
  function Fails(a: Reg, b: LaneID, sp: Spec): seq<Step> {
    [AnnounceBegin(Pair(a.lane, b, sp), Regs(a, b)), Write(true), Apply, RegisterNext]
  }

  lemma Extend(s: State, steps: seq<Step>, step: Step, more: seq<Step>)
    requires AllEnabled(s, steps) && Enabled(Run(s, steps), step) && more == steps + [step]
    ensures AllEnabled(s, more) && Run(s, more) == Next(Run(s, steps), step)
  {
    assert more[..|more| - 1] == steps;
  }

  /** The new lane is in the table, and the ledger refuses the known one. */
  lemma RefusedMisses(s: State, t: State, a: Reg, b: LaneID, sp: Spec)
    requires Quiet(s, a.lane) && Ungated(s, b, sp) && s.led.lanes[a.lane].ordering != a.ordering
    requires b in t.store && t.lanes == s.lanes[b := Fresh(sp)] && t.writer == Announced({b}, Regs(a, b))
    requires t.finishPending == s.finishPending && t.changes == s.changes && t.notifying == s.notifying
    requires t.supervisor == s.supervisor && t.led == s.led
    ensures Enabled(t, RegisterNext)
    ensures var u := Next(t, RegisterNext); b in u.store && Missed(u, b) && !Roused(u)
  {
    var u := DoRegister(t);
    assert u == t.(writer := Free, unheard := t.unheard + {b});
    assert !Gated(u.lanes, u.lanes[b]);
  }

  /**
   From any state in which the supervisor waits and nobody writes: announcing a known lane with another
   ordering, together with a new lane that waits for nothing, leaves the new lane stored and offered, the
   channel open and nobody about to close it.
   */
  lemma FailedRegistrationMisses(s0: State, steps: seq<Step>, a: Reg, b: LaneID, sp: Spec, more: seq<Step>)
    requires AllEnabled(s0, steps) && more == steps + Fails(a, b, sp)
    requires var s := Run(s0, steps);
             Quiet(s, a.lane) && Ungated(s, b, sp) && s.led.lanes[a.lane].ordering != a.ordering
    ensures AllEnabled(s0, more)
    ensures var t := Run(s0, more); b in t.store && Missed(t, b) && !Roused(t)
  {
    var s, f := Run(s0, steps), Fails(a, b, sp);
    var m1 := steps + [f[0]];
    var m2 := m1 + [f[1]];
    var m3 := m2 + [f[2]];
    assert more == m3 + [f[3]];
    BeginsPair(s, a, b, sp);
    Extend(s0, steps, f[0], m1);
    var s1 := Run(s0, m1);
    SameCache(s, s1);
    LandsOne(s1, Regs(a, b), b, sp);
    Extend(s0, m1, f[1], m2);
    Extend(s0, m2, f[2], m3);
    RefusedMisses(s, Run(s0, m3), a, b, sp);
    Extend(s0, m3, f[3], more);
  }

  // ---- such a run from a restart ------------------------------------------------------------------------

  /** The lane is loaded and registered; the supervisor reads it, and waits. */
  function Parks(a: Reg): seq<Step> {
    [Call(Runs.DoRegister(a.lane, a.ordering, a.budget, a.whenFull, a.dflt)), TakeChannel, Check, TakeChannel, Check]
  }

  predicate Loaded(s: State, a: Reg, sp: Spec) {
    && s.lanes == map[a.lane := Fresh(sp)] && s.finishPending == {} && sp.startAfter == []
    && s.writer.Free? && s.notifying == [] && Agrees(s)
  }

  lemma OffersOne(s: State, a: Reg, sp: Spec)
    requires Loaded(s, a, sp)
    ensures Assigned(s) == {a.lane}
  {
    assert Readable(s, a.lane);
  }

  /** A supervisor outside the loop, one look at the table later. */
  lemma LooksOnce(s: State, a: Reg, sp: Spec)
    requires Loaded(s, a, sp) && s.supervisor.Outside?
    ensures Enabled(s, TakeChannel) && Enabled(Next(s, TakeChannel), Check)
    ensures var t := Next(Next(s, TakeChannel), Check);
            && t.led == s.led && t.changes == s.changes && Loaded(t, a, sp)
            && t.supervisor == if a.lane in s.supervisor.owned then Parked(s.supervisor.owned, s.changes)
                               else Outside({a.lane})
  {
    var h := Next(s, TakeChannel);
    SameCache(s, h);
    OffersOne(h, a, sp);
    SameCache(h, Next(h, Check));
  }

  lemma Looks(s0: State, steps: seq<Step>, a: Reg, sp: Spec, more: seq<Step>)
    requires AllEnabled(s0, steps) && Loaded(Run(s0, steps), a, sp) && Run(s0, steps).supervisor.Outside?
    requires more == steps + [TakeChannel] + [Check]
    ensures AllEnabled(s0, more)
    ensures var s, t := Run(s0, steps), Run(s0, more);
            && t.led == s.led && t.changes == s.changes && Loaded(t, a, sp)
            && t.supervisor == if a.lane in s.supervisor.owned then Parked(s.supervisor.owned, s.changes)
                               else Outside({a.lane})
  {
    LooksOnce(Run(s0, steps), a, sp);
    Extend(s0, steps, TakeChannel, steps + [TakeChannel]);
    Extend(s0, steps + [TakeChannel], Check, more);
  }

  lemma Registers(s: State, a: Reg, sp: Spec, store: Store)
    requires store == map[a.lane := Row(Fresh(sp), 1)] && s == Load(store) && sp.startAfter == []
    ensures Enabled(s, Parks(a)[0])
    ensures var t := Next(s, Parks(a)[0]);
            && Loaded(t, a, sp) && t.supervisor == Outside({})
            && a.lane in t.led.lanes && t.led.lanes[a.lane].ordering == a.ordering
  {
    LoadCached(store);
    SameCache(s, Next(s, Parks(a)[0]));
  }

  lemma ParksQuietly(s0: State, a: Reg, sp: Spec, steps: seq<Step>)
    requires steps == Parks(a) && Enabled(s0, steps[0])
    requires var t := Next(s0, steps[0]);
             && Loaded(t, a, sp) && t.supervisor == Outside({})
             && a.lane in t.led.lanes && t.led.lanes[a.lane].ordering == a.ordering
    ensures AllEnabled(s0, steps)
    ensures var s := Run(s0, steps);
            && Loaded(s, a, sp) && s.supervisor == Parked({a.lane}, s.changes)
            && a.lane in s.led.lanes && s.led.lanes[a.lane].ordering == a.ordering
  {
    var none: seq<Step> := [];
    Extend(s0, none, steps[0], steps[..1]);
    Looks(s0, steps[..1], a, sp, steps[..3]);
    Looks(s0, steps[..3], a, sp, steps);
  }

  /** From a restart with one stored lane, nine steps lose the announcement of a second. */
  lemma AnnouncementLost(s0: State, a: Reg, b: LaneID, other: Ordering, sp: Spec, store: Store,
                         steps: seq<Step>, more: seq<Step>)
    requires store == map[a.lane := Row(Fresh(sp), 1)] && s0 == Load(store) && sp.startAfter == []
    requires b != a.lane && other != a.ordering
    requires steps == Parks(a) && more == steps + Fails(a.(ordering := other), b, sp)
    ensures StoreOK(store) && AllEnabled(s0, more)
    ensures var t := Run(s0, more); b in t.store && Missed(t, b) && !Roused(t)
  {
    Registers(s0, a, sp, store);
    ParksQuietly(s0, a, sp, steps);
    FailedRegistrationMisses(s0, steps, a.(ordering := other), b, sp, more);
  }
}
