/** What every interleaving of the lane table's users keeps. */
module LaneTable {
  import opened Records
  import opened LaneTableSpec

  // ---- the view and the store ----------------------------------------------------------------------

  /** All that reading and writing a row depends on. */
  predicate Same(a: LaneRec, b: LaneRec) {
    a.spec == b.spec && a.cursor == b.cursor && a.finished == b.finished && a.stamped == b.stamped
  }

  predicate AgreesAt(s: State, id: LaneID) {
    && id in s.store && id in s.lanes && id in s.versions
    && Same(s.store[id].rec, s.lanes[id])
    && s.versions[id] == s.store[id].version > 0
  }

  predicate Agrees(s: State) {
    && s.store.Keys == s.lanes.Keys == s.versions.Keys
    && forall id :: id in s.lanes ==> AgreesAt(s, id)
  }

  /** The view as it is once the holder of the write lock has noted what landed. */
  function View(s: State): State {
    if Settled(s.writer) && s.writer.landing.Landed? then DoApply(s) else s
  }

  /** What a writer may be about to send. */
  predicate WriterOK(s: State) {
    match s.writer
    case Announcing(added, _, _) => added.Keys !! s.lanes.Keys
    case Staging(staged, _, l) => staged.Keys <= s.lanes.Keys
    case Mutating(id, next, retires, l) =>
      && id in s.lanes && next.spec == s.lanes[id].spec
      && next.finished == (retires || s.lanes[id].finished) && next.stamped == (retires || s.lanes[id].stamped)
    case _ => true
  }

  predicate Cached(s: State) {
    Agrees(View(s)) && WriterOK(s)
  }

  lemma AnnounceAccepted(s: State)
    requires Agrees(s) && WriterOK(s) && s.writer.Announcing?
    ensures Accepts(s.store, Rows(s), s.versions)
  {
    assert forall id :: id in Rows(s) ==> id !in s.store && id !in s.versions;
  }

  lemma AnnounceLands(s: State, s': State)
    requires Agrees(s) && WriterOK(s) && s.writer.Announcing? && Unsettled(s.writer)
    requires Enabled(s, Write(true)) && s' == DoWrite(s, true)
    ensures s'.writer.landing.Landed? && Agrees(DoApply(s'))
  {
    AnnounceAccepted(s);
    var t := DoApply(s');
    forall id | id in t.lanes
      ensures AgreesAt(t, id)
    {
      assert id in s.lanes ==> AgreesAt(s, id);
    }
  }

  lemma StageLands(s: State, s': State)
    requires Agrees(s) && WriterOK(s) && s.writer.Staging? && Unsettled(s.writer)
    requires Enabled(s, Write(true)) && s' == DoWrite(s, true)
    ensures s'.writer.landing.Landed? && Agrees(DoApply(s'))
  {
    forall id | id in Rows(s)
      ensures Version(s.store, id) == if id in s.versions then s.versions[id] else 0
    {
      assert AgreesAt(s, id);
    }
    var t := DoApply(s');
    forall id | id in t.lanes
      ensures AgreesAt(t, id)
    {
      assert AgreesAt(s, id);
    }
  }

  lemma MutateLands(s: State, s': State)
    requires Agrees(s) && WriterOK(s) && s.writer.Mutating? && Unsettled(s.writer)
    requires Enabled(s, Write(true)) && s' == DoWrite(s, true)
    ensures s'.writer.landing.Landed? && Agrees(DoApply(s'))
  {
    assert AgreesAt(s, s.writer.lane);
    var t := DoApply(s');
    forall id | id in t.lanes
      ensures AgreesAt(t, id)
    {
      assert AgreesAt(s, id);
    }
  }

  /** A write of a lone worker is refused only when the store is down. */
  lemma WriteLands(s: State)
    requires Cached(s) && Enabled(s, Write(true))
    ensures DoWrite(s, true).writer.landing.Landed? && Cached(DoWrite(s, true))
  {
    match s.writer
    case Announcing(_, _, _) => AnnounceLands(s, DoWrite(s, true));
    case Staging(_, _, _) => StageLands(s, DoWrite(s, true));
    case Mutating(_, _, _, _) => MutateLands(s, DoWrite(s, true));
  }

  /** A step that neither writes nor takes the write lock. */
  lemma Untouched(s: State, s': State)
    requires Cached(s) && s'.store == s.store && s'.lanes == s.lanes && s'.versions == s.versions &&
             s'.writer == s.writer
    ensures Cached(s')
  {
    SameCache(View(s), View(s'));
  }

  lemma CachedBegin(s: State, step: Step)
    requires Cached(s) && s.writer.Free? && Enabled(s, step)
    requires step.AnnounceBegin? || step.StageBegin? || step.SeedBegin? || step.RetireBegin?
    ensures Cached(Next(s, step))
  {
    SameCache(s, Next(s, step));
  }

  lemma CachedWrite(s: State, up: bool)
    requires Cached(s) && Enabled(s, Write(up))
    ensures Cached(DoWrite(s, up))
  {
    if up {
      WriteLands(s);
    } else {
      SameCache(s, DoWrite(s, up));
    }
  }

  predicate Writes(step: Step) {
    || step.AnnounceBegin? || step.StageBegin? || step.SeedBegin? || step.RetireBegin?
    || step.Write? || step.Apply? || step.RegisterNext? || step.AnnounceNotify?
  }

  lemma QuietStep(s: State, step: Step)
    requires Enabled(s, step) && !Writes(step)
    ensures var s' := Next(s, step);
            s'.store == s.store && s'.lanes == s.lanes && s'.versions == s.versions && s'.writer == s.writer
  {}

  lemma CachedStep(s: State, step: Step)
    requires Cached(s) && Enabled(s, step)
    ensures Cached(Next(s, step))
  {
    if !Writes(step) {
      QuietStep(s, step);
      Untouched(s, Next(s, step));
    } else {
      match step
      case Write(up) => CachedWrite(s, up);
      case Apply => AppliedOK(s);
      case RegisterNext => SameCache(s, Next(s, step));
      case AnnounceNotify => SameCache(s, Next(s, step));
      case _ => CachedBegin(s, step);
    }
  }

  lemma SameCache(s: State, s': State)
    requires Agrees(s) && s'.store == s.store && s'.lanes == s.lanes && s'.versions == s.versions
    ensures Agrees(s')
  {
    forall id | id in s'.lanes
      ensures AgreesAt(s', id)
    {
      assert AgreesAt(s, id);
    }
  }

  lemma AppliedOK(s: State)
    requires Cached(s) && Settled(s.writer)
    ensures Cached(DoApply(s))
  {
    if s.writer.landing.Refused? {
      SameCache(s, DoApply(s));
    }
  }

  // ---- over runs -------------------------------------------------------------------------------------

  /** A stored row has been written at least once. */
  predicate StoreOK(store: Store) {
    forall id :: id in store ==> store[id].version > 0
  }

  lemma LoadCached(store: Store)
    requires StoreOK(store)
    ensures Cached(Load(store))
  {}

  lemma {:induction false} RunCached(s: State, steps: seq<Step>)
    requires Cached(s) && AllEnabled(s, steps)
    ensures Cached(Run(s, steps))
  {
    if steps == [] {
    } else {
      RunCached(s, steps[..|steps| - 1]);
      CachedStep(Run(s, steps[..|steps| - 1]), steps[|steps| - 1]);
    }
  }

  /**
   Over every interleaving: whenever no write is in progress, the view has exactly the stored rows,
   each with its stored cursor, finish and version.
   */
  lemma ViewAgreesWithStore(store: Store, steps: seq<Step>)
    requires StoreOK(store) && AllEnabled(Load(store), steps) && Run(Load(store), steps).writer.Free?
    ensures Agrees(Run(Load(store), steps))
  {
    LoadCached(store);
    RunCached(Load(store), steps);
  }

  /** Over every interleaving: a write of a lone worker never presents a stale version. */
  lemma OwnWritesNeverStale(store: Store, steps: seq<Step>)
    requires StoreOK(store) && AllEnabled(Load(store), steps) && Enabled(Run(Load(store), steps), Write(true))
    ensures var s := Run(Load(store), steps); Accepts(s.store, Rows(s), s.versions)
  {
    LoadCached(store);
    RunCached(Load(store), steps);
    WriteLands(Run(Load(store), steps));
  }

  /** A stored finish stays, whatever is written over its row. */
  lemma FinishKept(s: State, step: Step, id: LaneID)
    requires Cached(s) && Enabled(s, step) && id in s.store && Done(s.store[id].rec)
    ensures id in Next(s, step).store && Done(Next(s, step).store[id].rec)
  {
    if step.Write? {
      if s.writer.Staging? || s.writer.Mutating? {
        assert AgreesAt(s, id);
      }
    } else {
      StoreSame(s, step);
    }
  }

  lemma StoreSame(s: State, step: Step)
    requires Enabled(s, step) && !step.Write?
    ensures Next(s, step).store == s.store
  {}

  lemma FinishNeverLost(store: Store, steps: seq<Step>, step: Step, id: LaneID)
    requires StoreOK(store) && AllEnabled(Load(store), steps) && Enabled(Run(Load(store), steps), step)
    requires id in Run(Load(store), steps).store && Done(Run(Load(store), steps).store[id].rec)
    ensures var s := Next(Run(Load(store), steps), step); id in s.store && Done(s.store[id].rec)
  {
    LoadCached(store);
    RunCached(Load(store), steps);
    FinishKept(Run(Load(store), steps), step, id);
  }

  /** A cursor flush writes the epoch to the row and not to the view. */
  function Flush(s: State, id: LaneID, pos: int, epoch: nat): State
    requires s.writer.Free? && id in s.lanes
  {
    DoApply(DoWrite(s.(writer := Staging(map[id := pos], epoch, Unsent)), true))
  }

  function Retire(s: State, id: LaneID): State
    requires s.writer.Free? && id in s.lanes
  {
    DoApply(DoWrite(s.(writer := Mutating(id, s.lanes[id].(finished := true, stamped := true), true, Unsent)), true))
  }

  lemma FlushSplitsEpoch(s: State, id: LaneID, pos: int, epoch: nat)
    requires Agrees(s) && s.writer.Free? && id in s.lanes
    ensures var t := Flush(s, id, pos, epoch);
            && t.writer.Free? && Agrees(t) && id in t.lanes
            && t.store[id].rec.epoch == epoch
            && t.lanes[id] == s.lanes[id].(cursor := pos)
  {
    var a := s.(writer := Staging(map[id := pos], epoch, Unsent));
    SameCache(s, a);
    StageLands(a, DoWrite(a, true));
  }

  lemma RetireWritesView(s: State, id: LaneID)
    requires Agrees(s) && s.writer.Free? && id in s.lanes
    ensures var t := Retire(s, id); id in t.store && t.store[id].rec == s.lanes[id].(finished := true, stamped := true)
  {
    var a := s.(writer := Mutating(id, s.lanes[id].(finished := true, stamped := true), true, Unsent));
    SameCache(s, a);
    MutateLands(a, DoWrite(a, true));
  }

  /**
   The epoch of a cursor is not part of the agreement: whatever epoch a cursor was flushed under, the
   finish that follows puts the view's old epoch beside it.
   */
  lemma FinishRewindsCursorEpoch(s: State, id: LaneID, pos: int, epoch: nat)
    requires Agrees(s) && s.writer.Free? && id in s.lanes
    ensures var t := Flush(s, id, pos, epoch);
            && t.writer.Free? && id in t.lanes && t.store.Keys == t.lanes.Keys && t.store[id].rec.epoch == epoch
            && var u := Retire(t, id);
               id in u.store && u.store[id].rec.cursor == pos && u.store[id].rec.epoch == s.lanes[id].epoch
  {
    FlushSplitsEpoch(s, id, pos, epoch);
    RetireWritesView(Flush(s, id, pos, epoch), id);
  }
}
