/**
 The supervisor takes the channel before it reads the table, so an announcement is lost only when its
 announcer fails between the table and the channel.
 */
module LaneWatch {
  import opened Records
  import opened LaneTableSpec
  import opened LaneTable
  import L = LedgerSpec
  import LI = LedgerInv
  import Runs = LedgerRuns
  import F = LedgerFence
  import Gates = LaneGates

  /** The lanes an announcer has put into the table and not yet told anybody of. */
  function Joining(w: Writer): set<LaneID> { if w.Announced? then w.joined else {} }

  /** What a parked supervisor on an open channel may be missing. */
  predicate Watched(s: State) {
    match s.supervisor
    case Outside(_) => true
    case Holding(_, c) => c <= s.changes
    case Parked(owned, c) =>
      c <= s.changes && (c == s.changes && s.notifying == [] ==> Assigned(s) <= owned + s.unheard + Joining(s.writer))
  }

  predicate Inv(s: State) { Cached(s) && Watched(s) }

  /** Cursors and epochs do not decide what is offered. */
  predicate SameGates(a: Table, b: Table) {
    a.Keys == b.Keys && forall id :: id in a ==>
      a[id].spec == b[id].spec && a[id].finished == b[id].finished && a[id].stamped == b[id].stamped
  }

  lemma SameWaiting(a: Table, b: Table, g: Group)
    requires SameGates(a, b)
    ensures Waiting(a, g) <==> Waiting(b, g)
  {
    if Waiting(a, g) {
      var id :| id in a && a[id].spec.group == g && !Done(a[id]);
      assert id in b && b[id].spec.group == g && !Done(b[id]);
    }
    if Waiting(b, g) {
      var id :| id in b && b[id].spec.group == g && !Done(b[id]);
      assert id in a && a[id].spec.group == g && !Done(a[id]);
    }
  }

  lemma SameOffered(a: Table, b: Table, pending: set<LaneID>, id: LaneID)
    requires SameGates(a, b)
    ensures Offered(a, pending, id) <==> Offered(b, pending, id)
  {
    if id in a {
      forall i | 0 <= i < |a[id].spec.startAfter|
        ensures Waiting(a, a[id].spec.startAfter[i]) <==> Waiting(b, a[id].spec.startAfter[i])
      {
        SameWaiting(a, b, a[id].spec.startAfter[i]);
      }
    }
  }

  lemma SameAssigned(s: State, s': State)
    requires SameGates(s.lanes, s'.lanes) && s'.finishPending == s.finishPending
    ensures Assigned(s') == Assigned(s)
  {
    forall id: LaneID
      ensures Readable(s, id) <==> Readable(s', id)
    {
      SameOffered(s.lanes, s'.lanes, s.finishPending, id);
    }
  }

  /** What landed changes which lanes are offered only for an announcement or a finish. */
  lemma ApplyGates(s: State)
    requires Cached(s) && Settled(s.writer) && !DoApply(s).writer.Announced? && DoApply(s).notifying == []
    ensures SameGates(s.lanes, DoApply(s).lanes) && DoApply(s).finishPending == s.finishPending
    ensures s.notifying == [] && DoApply(s).unheard == s.unheard
  {}

  /** New lanes close gates and open none. */
  lemma JoinedOffered(a: Table, b: Table, pending: set<LaneID>, id: LaneID)
    requires id in a && Offered(b, pending, id) && forall i :: i in a ==> i in b && b[i] == a[i]
    ensures Offered(a, pending, id)
  {
    forall i | 0 <= i < |a[id].spec.startAfter|
      ensures !Waiting(a, a[id].spec.startAfter[i])
    {
      assert !Waiting(b, b[id].spec.startAfter[i]);
    }
  }

  lemma JoinWatched(s: State)
    requires Inv(s) && Settled(s.writer) && DoApply(s).writer.Announced?
    ensures Watched(DoApply(s))
  {
    var s' := DoApply(s);
    forall id | id in Assigned(s')
      ensures id in Assigned(s) || id in s'.writer.joined
    {
      if id in s.lanes {
        JoinedOffered(s.lanes, s'.lanes, s.finishPending, id);
      }
    }
  }

  lemma ApplyWatched(s: State)
    requires Inv(s) && Settled(s.writer)
    ensures Watched(DoApply(s))
  {
    if DoApply(s).writer.Announced? {
      JoinWatched(s);
    } else if DoApply(s).notifying == [] {
      ApplyGates(s);
      SameAssigned(s, DoApply(s));
    }
  }

  /** Steps that leave what is offered alone, and nobody is forgotten. */
  lemma QuietWatched(s: State, s': State)
    requires Watched(s) && s'.lanes == s.lanes && s'.finishPending == s.finishPending
    requires s'.changes == s.changes && s'.supervisor == s.supervisor && s'.notifying == s.notifying
    requires s.unheard + Joining(s.writer) <= s'.unheard + Joining(s'.writer)
    ensures Watched(s')
  {
    SameAssigned(s, s');
  }

  /** Steps that close the channel. */
  lemma ClosedWatched(s: State, s': State)
    requires Watched(s) && s'.changes == s.changes + 1 && s'.supervisor == s.supervisor
    ensures Watched(s')
  {}

  predicate Closes(step: Step) { step.AnnounceNotify? || step.RetireNotify? || step.FinishMark? }

  predicate Supervises(step: Step) { step.TakeChannel? || step.Check? || step.Wake? || step.Leave? }

  lemma ClosingStep(s: State, step: Step)
    requires Enabled(s, step) && Closes(step)
    ensures Next(s, step).changes == s.changes + 1 && Next(s, step).supervisor == s.supervisor
  {}

  lemma RegisterStep(s: State)
    requires Enabled(s, RegisterNext)
    ensures var s' := Next(s, RegisterNext);
            && s'.lanes == s.lanes && s'.finishPending == s.finishPending
            && s'.changes == s.changes && s'.supervisor == s.supervisor && s'.notifying == s.notifying
            && s.unheard + Joining(s.writer) <= s'.unheard + Joining(s'.writer)
  {}

  lemma OtherStep(s: State, step: Step)
    requires Enabled(s, step) && !Closes(step) && !Supervises(step) && !step.Apply? && !step.RegisterNext?
    ensures var s' := Next(s, step);
            && s'.lanes == s.lanes && s'.finishPending == s.finishPending
            && s'.changes == s.changes && s'.supervisor == s.supervisor && s'.notifying == s.notifying
            && s.unheard + Joining(s.writer) <= s'.unheard + Joining(s'.writer)
  {}

  lemma SupervisorStep(s: State, step: Step)
    requires Watched(s) && Enabled(s, step) && Supervises(step)
    ensures Watched(Next(s, step))
  {
    if step.Check? {
      SameAssigned(s, Next(s, step));
    }
  }

  lemma NextKeeps(s: State, step: Step)
    requires Inv(s) && Enabled(s, step)
    ensures Inv(Next(s, step))
  {
    CachedStep(s, step);
    if step.Apply? {
      ApplyWatched(s);
    } else if Closes(step) {
      ClosingStep(s, step);
      ClosedWatched(s, Next(s, step));
    } else if Supervises(step) {
      SupervisorStep(s, step);
    } else if step.RegisterNext? {
      RegisterStep(s);
      QuietWatched(s, Next(s, step));
    } else {
      OtherStep(s, step);
      QuietWatched(s, Next(s, step));
    }
  }

  lemma {:induction false} RunKeeps(s: State, steps: seq<Step>)
    requires Inv(s) && AllEnabled(s, steps)
    ensures Inv(Run(s, steps))
  {
    if steps == [] {
    } else {
      RunKeeps(s, steps[..|steps| - 1]);
      NextKeeps(Run(s, steps[..|steps| - 1]), steps[|steps| - 1]);
    }
  }

  /** The supervisor waits, and the lane it could be reading is not among those it reads. */
  predicate Missed(s: State, id: LaneID) {
    s.supervisor.Parked? && Readable(s, id) && id !in s.supervisor.owned
  }

  /** The supervisor's channel is closed, or somebody is between the table and the channel. */
  predicate Roused(s: State)
    requires s.supervisor.Parked?
  {
    s.supervisor.channel < s.changes || s.writer.Announced? || s.notifying != []
  }

  /**
   Over every interleaving: a lane the supervisor misses while its channel is open and nobody is about to
   close it was put into the table, since the supervisor took the channel, by an announcer that then
   failed to register it or a lane announced with it.
   */
  lemma MissedIsUnheard(store: Store, steps: seq<Step>, id: LaneID)
    requires StoreOK(store) && AllEnabled(Load(store), steps)
    requires var s := Run(Load(store), steps); Missed(s, id) && !Roused(s)
    ensures id in Run(Load(store), steps).unheard
  {
    LoadCached(store);
    RunKeeps(Load(store), steps);
    assert id in Assigned(Run(Load(store), steps));
  }

  // ---- announcing every lane with one ordering ------------------------------------------------------------

  type Orderings = map<LaneID, Ordering>

  predicate Agreed(ord: Orderings, id: LaneID, ordering: Ordering) { id in ord && ord[id] == ordering }

  predicate AllAgreed(ord: Orderings, regs: seq<Reg>) {
    forall r :: r in regs ==> Agreed(ord, r.lane, r.ordering)
  }

  /** Whoever names a lane names it with its one ordering. */
  predicate Uniform(ord: Orderings, step: Step) {
    match step
    case AnnounceBegin(_, regs) => AllAgreed(ord, regs)
    case Call(op) => op.DoRegister? ==> Agreed(ord, op.lane, op.ordering)
    case _ => true
  }

  function Regs(w: Writer): seq<Reg> {
    match w
    case Announcing(_, regs, _) => regs
    case Announced(_, regs) => regs
    case _ => []
  }

  predicate LedgerAgreed(ord: Orderings, led: L.State) {
    forall id :: id in led.lanes ==> Agreed(ord, id, led.lanes[id].ordering)
  }

  predicate Heard(ord: Orderings, s: State) {
    LedgerAgreed(ord, s.led) && AllAgreed(ord, Regs(s.writer)) && s.unheard == {}
  }

  lemma CallAgreed(ord: Orderings, led: L.State, op: Runs.Op)
    requires LI.Inv(led) && LedgerAgreed(ord, led) && (op.DoRegister? ==> Agreed(ord, op.lane, op.ordering))
    ensures LedgerAgreed(ord, Runs.Step(led, op))
  {
    forall id | id in Runs.Step(led, op).lanes
      ensures Agreed(ord, id, Runs.Step(led, op).lanes[id].ordering)
    {
      if id in led.lanes {
        Runs.StepGrows(led, op, id);
      } else {
        F.Joins(led, op, id);
      }
    }
  }

  lemma RegisterHeard(ord: Orderings, s: State)
    requires LI.Inv(s.led) && Heard(ord, s) && Enabled(s, RegisterNext)
    ensures Heard(ord, Next(s, RegisterNext))
  {
    var r := s.writer.regs[0];
    assert Agreed(ord, r.lane, r.ordering);
    CallAgreed(ord, s.led, Runs.DoRegister(r.lane, r.ordering, r.budget, r.whenFull, r.dflt));
  }

  lemma CallHeard(ord: Orderings, s: State, op: Runs.Op, s': State)
    requires LI.Inv(s.led) && Heard(ord, s) && (op.DoRegister? ==> Agreed(ord, op.lane, op.ordering))
    requires s'.led == Runs.Step(s.led, op) && s'.writer == s.writer && s'.unheard == s.unheard
    ensures Heard(ord, s')
  {
    CallAgreed(ord, s.led, op);
  }

  lemma QuietHeard(ord: Orderings, s: State, step: Step)
    requires Heard(ord, s) && Enabled(s, step) && Uniform(ord, step) && !Gates.CallsLedger(step)
    ensures Heard(ord, Next(s, step))
  {
    Gates.SameLedger(s, step);
  }

  lemma NextHeard(ord: Orderings, s: State, step: Step)
    requires LI.Inv(s.led) && Heard(ord, s) && Enabled(s, step) && Uniform(ord, step)
    ensures Heard(ord, Next(s, step))
  {
    match step
    case RegisterNext => RegisterHeard(ord, s);
    case Call(op) => CallHeard(ord, s, op, Next(s, step));
    case FinishRequest(id) => CallHeard(ord, s, Runs.DoRequestRetire(id), Next(s, step));
    case Collect => CallHeard(ord, s, Runs.DoRetirable, Next(s, step));
    case _ => QuietHeard(ord, s, step);
  }

  lemma {:induction false} RunHeard(ord: Orderings, store: Store, steps: seq<Step>)
    requires AllEnabled(Load(store), steps) && forall i :: 0 <= i < |steps| ==> Uniform(ord, steps[i])
    ensures Heard(ord, Run(Load(store), steps))
  {
    if steps == [] {
    } else {
      var init := steps[..|steps| - 1];
      RunHeard(ord, store, init);
      Gates.LoadInv(store);
      Gates.RunKeeps(Load(store), init);
      NextHeard(ord, Run(Load(store), init), steps[|steps| - 1]);
    }
  }

  /**
   Over every interleaving in which each lane is always announced with one ordering: a supervisor that is
   parked while some lane offered for reading is not in its read set holds a closed channel, or somebody
   is between the table and the channel and will not fail.
   */
  lemma NoLostAnnouncement(ord: Orderings, store: Store, steps: seq<Step>, id: LaneID)
    requires StoreOK(store) && AllEnabled(Load(store), steps)
    requires forall i :: 0 <= i < |steps| ==> Uniform(ord, steps[i])
    requires Missed(Run(Load(store), steps), id)
    ensures Roused(Run(Load(store), steps))
    ensures var s := Run(Load(store), steps);
            s.writer.Announced? && s.writer.regs != [] ==> DoRegister(s).writer.Announced?
  {
    RunHeard(ord, store, steps);
    if !Roused(Run(Load(store), steps)) {
      MissedIsUnheard(store, steps, id);
    }
    var s := Run(Load(store), steps);
    if s.writer.Announced? && s.writer.regs != [] {
      assert Agreed(ord, s.writer.regs[0].lane, s.writer.regs[0].ordering);
    }
  }
}
