/** A finish is written only for a drained lane, so a gate never opens over records in flight. */
module LaneGates {
  import opened Records
  import opened LaneTableSpec
  import opened LaneTable
  import L = LedgerSpec
  import LI = LedgerInv
  import Runs = LedgerRuns
  import F = LedgerFence

  // ---- what calls of the ledger do to a lane that is being finished --------------------------------

  /** No group was added, and whether a finish was asked for is unchanged. */
  predicate Calm(st: L.Lane, t: L.Lane) {
    t.pending <= st.pending && t.retireRequested == st.retireRequested
  }

  lemma {:induction false} SettleAllCalm(s: L.State, outs: seq<Outcome>, id: LaneID)
    requires id in s.lanes
    ensures id in L.SettleAll(s, outs).0.lanes && Calm(s.lanes[id], L.SettleAll(s, outs).0.lanes[id])
  {
    if outs == [] {
    } else {
      SettleAllCalm(s, outs[..|outs| - 1], id);
      SettleOneCalm(L.SettleAll(s, outs[..|outs| - 1]).0, outs[|outs| - 1], id);
    }
  }

  lemma SettleOneCalm(s: L.State, o: Outcome, id: LaneID)
    requires id in s.lanes
    ensures id in L.SettleOne(s, o).0.lanes && Calm(s.lanes[id], L.SettleOne(s, o).0.lanes[id])
  {
    if L.Settles(s, o) {
      var g := s.groups[s.byRec[o.record]];
      LaneAfterCalm(s.lanes[g.lane], g, o);
    }
  }

  lemma CloseCalm(st: L.Lane, g: L.Group)
    requires st.pending > 0
    ensures Calm(st, L.CloseGroup(st, g))
  {}

  lemma LaneAfterCalm(st: L.Lane, g: L.Group, o: Outcome)
    requires L.Indexed(st, g)
    ensures Calm(st, L.LaneAfter(st, g, o))
  {
    CloseCalm(L.Noted(st, g, o), L.SettleGroup(g, o));
  }

  lemma {:induction false} PublishAllCalm(s: L.State, advances: seq<L.Advance>, id: LaneID)
    requires id in s.lanes
    ensures id in L.PublishAll(s, advances).lanes && Calm(s.lanes[id], L.PublishAll(s, advances).lanes[id])
  {
    if advances == [] {
    } else {
      PublishAllCalm(s, advances[..|advances| - 1], id);
    }
  }

  lemma {:induction false} EmitCalm(s: L.State, order: seq<LaneID>, id: LaneID)
    requires id in s.lanes
    ensures id in L.EmitDiscrete(s, order).lanes && Calm(s.lanes[id], L.EmitDiscrete(s, order).lanes[id])
  {
    if order == [] {
    } else {
      EmitCalm(s, order[..|order| - 1], id);
    }
  }

  lemma {:induction false} CommittedCalm(s: L.State, m: map<LaneID, Position>, order: seq<LaneID>, id: LaneID)
    requires id in s.lanes
    ensures id in L.Committed(s, m, order).lanes && Calm(s.lanes[id], L.Committed(s, m, order).lanes[id])
  {
    if order == [] {
    } else {
      CommittedCalm(s, m, order[..|order| - 1], id);
    }
  }

  lemma OtherCalm(s: L.State, op: Runs.Op, id: LaneID)
    requires id in s.lanes && !op.DoAdmit? && !op.DoSettle? && !op.DoEmit? && !op.DoCommitted?
    requires !op.DoRequestRetire? && !op.DoRetirable?
    ensures id in Runs.Step(s, op).lanes && Calm(s.lanes[id], Runs.Step(s, op).lanes[id])
  {}

  lemma AdmitElsewhere(s: L.State, b: Batch, id: LaneID)
    requires id in s.lanes && b.lane != id
    ensures id in L.Admit(s, b).0.lanes && L.Admit(s, b).0.lanes[id] == s.lanes[id]
  {
    if b.lane in s.lanes {
      F.HeldFence(s, b);
    }
  }

  lemma HeldRequest(s: L.State, b: Batch)
    requires b.lane in s.lanes
    ensures var s' := L.AdmitHeld(s, b).0;
            && b.lane in s'.lanes
            && s'.lanes[b.lane].retireRequested == s.lanes[b.lane].retireRequested
  {}

  lemma AdmitRequest(s: L.State, b: Batch, id: LaneID)
    requires id in s.lanes
    ensures id in L.Admit(s, b).0.lanes && L.Admit(s, b).0.lanes[id].retireRequested == s.lanes[id].retireRequested
  {
    if b.lane == id {
      HeldRequest(s, b);
    } else {
      AdmitElsewhere(s, b, id);
    }
  }

  lemma SettleCalm(s: L.State, outs: seq<Outcome>, id: LaneID)
    requires id in s.lanes
    ensures id in L.Settle(s, outs).lanes && Calm(s.lanes[id], L.Settle(s, outs).lanes[id])
  {
    SettleAllCalm(s, outs, id);
    PublishAllCalm(L.SettleAll(s, outs).0, L.SettleAll(s, outs).1, id);
  }

  lemma CallCalm(s: L.State, op: Runs.Op, id: LaneID)
    requires id in s.lanes && !op.DoRequestRetire? && !op.DoRetirable? && (op.DoAdmit? ==> op.batch.lane != id)
    ensures id in Runs.Step(s, op).lanes && Calm(s.lanes[id], Runs.Step(s, op).lanes[id])
  {
    match op
    case DoAdmit(b) => AdmitElsewhere(s, b, id);
    case DoSettle(outs) => SettleCalm(s, outs, id);
    case DoEmit(order) => EmitCalm(s, order, id);
    case DoCommitted(m, order) => CommittedCalm(s, m, order, id);
    case _ => OtherCalm(s, op, id);
  }

  // ---- cleared lanes ---------------------------------------------------------------------------------

  predicate Drained(led: L.State, id: LaneID) {
    id in led.lanes ==> led.lanes[id].pending == 0
  }

  /** A finish was asked for and everything admitted for the lane has settled. */
  predicate Cleared(s: State, id: LaneID) { id in s.requested && Drained(s.led, id) }

  predicate RequestsKnown(s: State) {
    forall id :: id in s.led.lanes && s.led.lanes[id].retireRequested ==> id in s.requested
  }

  /** Whoever may be finished, or is, in the view, in the store or in a write, is cleared. */
  predicate GatesOK(s: State) {
    && (forall id :: id in s.retiring ==> Cleared(s, id))
    && (forall id :: id in s.lanes && s.lanes[id].finished ==> Cleared(s, id))
    && (forall id :: id in s.store && s.store[id].rec.finished ==> Cleared(s, id))
    && (s.writer.Mutating? && s.writer.next.finished ==> Cleared(s, s.writer.lane))
  }

  ghost predicate Inv(s: State) {
    LI.Inv(s.led) && RequestsKnown(s) && GatesOK(s)
  }

  /** Once cleared, a lane stays cleared: nothing is admitted to it any more. */
  lemma CallCleared(s: State, op: Runs.Op, id: LaneID)
    requires Enabled(s, Call(op)) && Cleared(s, id)
    ensures Drained(Runs.Step(s.led, op), id)
  {
    if id in s.led.lanes {
      CallCalm(s.led, op, id);
    } else if op.DoRegister? {
      assert id in Runs.Step(s.led, op).lanes ==> Runs.Step(s.led, op).lanes[id].pending == 0;
    } else {
      F.StepLanes(s.led, op);
    }
  }

  lemma CallKnown(s: State, op: Runs.Op)
    requires Enabled(s, Call(op)) && RequestsKnown(s)
    ensures RequestsKnown(s.(led := Runs.Step(s.led, op)))
  {
    var led := Runs.Step(s.led, op);
    forall id | id in led.lanes && led.lanes[id].retireRequested
      ensures id in s.requested
    {
      if id in s.led.lanes {
        if op.DoAdmit? {
          AdmitRequest(s.led, op.batch, id);
        } else {
          CallCalm(s.led, op, id);
        }
      } else if !op.DoRegister? {
        F.StepLanes(s.led, op);
      }
    }
  }

  /** Fewer cleared lanes are needed after a step that clears none less. */
  lemma GatesKept(s: State, s': State)
    requires GatesOK(s) && forall id :: Cleared(s, id) ==> Cleared(s', id)
    requires s'.retiring <= s.retiring && s'.lanes == s.lanes && s'.store == s.store && s'.writer == s.writer
    ensures GatesOK(s')
  {}

  lemma CallKeeps(s: State, op: Runs.Op)
    requires Inv(s) && Enabled(s, Call(op))
    ensures Inv(Next(s, Call(op)))
  {
    var s' := Next(s, Call(op));
    Runs.StepKeeps(s.led, op);
    CallKnown(s, op);
    forall id | Cleared(s, id)
      ensures Cleared(s', id)
    {
      CallCleared(s, op, id);
    }
    GatesKept(s, s');
  }

  /** A registration is the ledger's own, whether it is accepted or not. */
  lemma RegisterKeeps(s: State)
    requires Inv(s) && Enabled(s, RegisterNext)
    ensures Inv(Next(s, RegisterNext))
  {
    var r := s.writer.regs[0];
    var op := Runs.DoRegister(r.lane, r.ordering, r.budget, r.whenFull, r.dflt);
    CallKeeps(s, op);
    var t, s' := Next(s, Call(op)), Next(s, RegisterNext);
    assert s'.led == t.led;
    assert forall id :: Cleared(s', id) <==> Cleared(t, id);
  }

  lemma FinishKeeps(s: State, id: LaneID)
    requires Inv(s)
    ensures Inv(DoFinish(s, id))
  {
    var s' := DoFinish(s, id);
    LI.RequestRetireKeeps(s.led, id);
    FinishGates(s, id);
  }

  /** Asking for a finish opens no group; a lane it clears has none. */
  lemma RequestDrains(led: L.State, id: LaneID, i: LaneID)
    ensures var (led', now) := L.RequestRetire(led, id);
            && (Drained(led, i) ==> Drained(led', i))
            && (now ==> Drained(led', id))
            && (i in led'.lanes && led'.lanes[i].retireRequested ==>
                  i == id || (i in led.lanes && led.lanes[i].retireRequested))
  {}

  lemma FinishGates(s: State, id: LaneID)
    requires RequestsKnown(s) && GatesOK(s)
    ensures RequestsKnown(DoFinish(s, id)) && GatesOK(DoFinish(s, id))
  {
    var s' := DoFinish(s, id);
    forall i: LaneID
      ensures Cleared(s, i) ==> Cleared(s', i)
      ensures i in s'.retiring ==> Cleared(s', i)
      ensures i in s'.led.lanes && s'.led.lanes[i].retireRequested ==> i in s'.requested
    {
      RequestDrains(s.led, id, i);
    }
  }

  lemma CollectGates(s: State)
    requires RequestsKnown(s) && GatesOK(s)
    ensures RequestsKnown(Next(s, Collect)) && GatesOK(Next(s, Collect))
  {
    var s' := Next(s, Collect);
    forall i | Cleared(s, i)
      ensures Cleared(s', i)
    {
    }
  }

  lemma CollectKeeps(s: State)
    requires Inv(s)
    ensures Inv(Next(s, Collect))
  {
    LI.RetirableKeeps(s.led);
    CollectGates(s);
  }

  lemma WriteGates(s: State, up: bool)
    requires GatesOK(s) && Enabled(s, Write(up))
    ensures GatesOK(DoWrite(s, up))
  {
    var s' := DoWrite(s, up);
    forall id | id in s'.store && s'.store[id].rec.finished
      ensures Cleared(s', id)
    {
      assert Cleared(s, id);
    }
  }

  lemma ApplyGates(s: State)
    requires GatesOK(s) && Enabled(s, Apply)
    ensures GatesOK(DoApply(s))
  {
    var s' := DoApply(s);
    forall id | id in s'.lanes && s'.lanes[id].finished
      ensures Cleared(s', id)
    {
      assert Cleared(s, id);
    }
  }

  lemma BeginGates(s: State, step: Step)
    requires GatesOK(s) && Enabled(s, step)
    requires step.AnnounceBegin? || step.StageBegin? || step.SeedBegin? || step.RetireBegin?
    ensures GatesOK(Next(s, step))
  {
    var s' := Next(s, step);
    assert forall id :: Cleared(s', id) <==> Cleared(s, id);
  }

  predicate CallsLedger(step: Step) { step.Call? || step.FinishRequest? || step.Collect? || step.RegisterNext? }

  lemma SameLedger(s: State, step: Step)
    requires Enabled(s, step) && !CallsLedger(step)
    ensures Next(s, step).led == s.led && Next(s, step).requested == s.requested
  {}

  lemma QuietGates(s: State, step: Step)
    requires GatesOK(s) && Enabled(s, step)
    requires step.AnnounceNotify? || step.RetireNotify? || step.FinishMark? || step.TakeChannel? || step.Check? ||
             step.Wake? || step.Leave?
    ensures GatesOK(Next(s, step))
  {
    var s' := Next(s, step);
    assert forall id :: Cleared(s', id) <==> Cleared(s, id);
  }

  lemma NextGates(s: State, step: Step)
    requires GatesOK(s) && Enabled(s, step) && !CallsLedger(step)
    ensures GatesOK(Next(s, step))
  {
    match step
    case Write(up) => WriteGates(s, up);
    case Apply => ApplyGates(s);
    case AnnounceBegin(_, _) => BeginGates(s, step);
    case StageBegin(_, _) => BeginGates(s, step);
    case SeedBegin(_, _) => BeginGates(s, step);
    case RetireBegin(_) => BeginGates(s, step);
    case _ => QuietGates(s, step);
  }

  lemma NextKeeps(s: State, step: Step)
    requires Inv(s) && Enabled(s, step)
    ensures Inv(Next(s, step))
  {
    match step
    case Call(op) => CallKeeps(s, op);
    case FinishRequest(id) => FinishKeeps(s, id);
    case Collect => CollectKeeps(s);
    case RegisterNext => RegisterKeeps(s);
    case _ =>
      SameLedger(s, step);
      NextGates(s, step);
  }

  lemma LoadInv(store: Store)
    ensures Inv(Load(store))
  {
    Runs.InitialInv();
  }

  lemma {:induction false} RunKeeps(s: State, steps: seq<Step>)
    requires Inv(s) && AllEnabled(s, steps)
    ensures Inv(Run(s, steps))
  {
    if steps == [] {
    } else {
      RunKeeps(s, steps[..|steps| - 1]);
      NextKeeps(Run(s, steps[..|steps| - 1]), steps[|steps| - 1]);
    }
  }

  // ---- the gate --------------------------------------------------------------------------------------

  lemma DrainedOpen(led: L.State, id: LaneID, g: GroupID)
    requires LI.Inv(led) && Drained(led, id) && g in led.groups
    ensures led.groups[g].lane != id
  {
    if led.groups[g].lane == id {
      LI.GroupIndexed(led, g);
    }
  }

  /** The view finishes a lane only after the store did. */
  lemma FinishedIsStored(s: State, id: LaneID)
    requires Cached(s) && id in s.lanes && Done(s.lanes[id])
    ensures id in s.store && Done(s.store[id].rec)
  {
    var v := View(s);
    assert id in v.lanes;
    assert AgreesAt(v, id);
  }

  /** Over every interleaving: a durable finish belongs to a lane with no group open. */
  lemma FinishedIsDrained(store: Store, steps: seq<Step>, id: LaneID, g: GroupID)
    requires AllEnabled(Load(store), steps)
    requires var s := Run(Load(store), steps); id in s.store && s.store[id].rec.finished && g in s.led.groups
    ensures Run(Load(store), steps).led.groups[g].lane != id
  {
    LoadInv(store);
    RunKeeps(Load(store), steps);
    DrainedOpen(Run(Load(store), steps).led, id, g);
  }

  /**
   Over every interleaving in which nothing is admitted to a lane once its finish was asked for: a
   lane offered for reading waits for no group of which a known lane has records in flight or a
   finish that is not durable.
   */
  lemma GateHolds(store: Store, steps: seq<Step>, id: LaneID, other: LaneID, i: nat)
    requires StoreOK(store) && AllEnabled(Load(store), steps)
    requires var s := Run(Load(store), steps);
             && Readable(s, id)
             && i < |s.lanes[id].spec.startAfter|
             && other in s.lanes && s.lanes[other].spec.group == s.lanes[id].spec.startAfter[i]
    ensures var s := Run(Load(store), steps);
            && other in s.store && Done(s.store[other].rec)
            && forall g :: g in s.led.groups ==> s.led.groups[g].lane != other
  {
    LoadCached(store);
    RunCached(Load(store), steps);
    LoadInv(store);
    RunKeeps(Load(store), steps);
    var s := Run(Load(store), steps);
    assert Done(s.lanes[other]) by {
      assert !Waiting(s.lanes, s.lanes[id].spec.startAfter[i]);
    }
    FinishedIsStored(s, other);
    forall g | g in s.led.groups
      ensures s.led.groups[g].lane != other
    {
      DrainedOpen(s.led, other, g);
    }
  }
}
