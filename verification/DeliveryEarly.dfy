/** When a commit settles records nobody published, and when it cannot. */
module DeliveryEarly {
  import opened Records
  import opened PipelineSpec
  import opened Delivery
  import C = CommitSpec
  import CI = CommitInv
  import E = CommitEarly

  /** A sink that confirms something leaves nothing of its node above the highest checkpoint it confirmed. */
  predicate PromptAct(s: Whole, a: Act)
    requires a.Commit? ==> C.Enabled(s.c, a.step)
  {
    a.Commit? && a.step.Publish? ==>
      E.Prompt(s.c.awaiting, a.step.node, E.Confirms(s.c, a.step.node, a.step.published))
  }

  ghost predicate AllPrompt(s: Whole, acts: seq<Act>)
    requires AllPossible(s, acts)
  {
    acts == [] || (AllPrompt(s, acts[..|acts| - 1]) && PromptAct(Acts(s, acts[..|acts| - 1]), acts[|acts| - 1]))
  }

  lemma AwaitedOrigin(s: Whole, node: C.Node, k: C.CheckpointID, r: RecordID)
    requires WholeInv(s) && k in s.c.awaiting && r in C.At(s.c.awaiting, k, node)
    ensures r in s.p.origin
  {
    assert WithSink(s.c, node, r);
    assert CI.Partitioned(s.c, node, r);
    WithSinkHeld(s.c, node, r);
    HeldOrigin(s, node, r);
  }

  lemma EarlyOrigins(s: Whole, node: C.Node, confirmed: seq<C.Committable>)
    requires WholeInv(s)
    ensures OriginsOf(s.p, E.EarlyNow(s.c.awaiting, node, confirmed)) == {} <==>
            E.Prompt(s.c.awaiting, node, confirmed)
  {
    var early := E.EarlyNow(s.c.awaiting, node, confirmed);
    E.EarlyExactly(s.c.awaiting, node, confirmed);
    if early != {} {
      var r :| r in early;
      var k :| k in s.c.awaiting && r in C.At(s.c.awaiting, k, node);
      AwaitedOrigin(s, node, k, r);
      assert s.p.origin[r] in OriginsOf(s.p, early);
    }
  }

  lemma EarlyAct(s: Whole, a: Act)
    requires WholeInv(s) && Possible(s, a)
    ensures Perform(s, a).fates.early == {} <==> s.fates.early == {} && PromptAct(s, a)
  {
    if a.Commit? && a.step.Publish? {
      EarlyOrigins(s, a.step.node, E.Confirms(s.c, a.step.node, a.step.published));
    }
  }

  /**
   Over every run, with a crash between any two acts: no record is settled early if and only if every
   sink that confirms anything confirms a checkpoint at or above all its node awaits.
   */
  lemma {:induction false} NothingEarly(committers: seq<C.Node>, acts: seq<Act>)
    requires AllPossible(Begin(committers), acts)
    ensures Acts(Begin(committers), acts).fates.early == {} <==> AllPrompt(Begin(committers), acts)
  {
    if acts == [] {
    } else {
      var init := acts[..|acts| - 1];
      NothingEarly(committers, init);
      BeginInv(committers);
      ActsKeep(Begin(committers), init);
      EarlyAct(Acts(Begin(committers), init), acts[|acts| - 1]);
    }
  }

  // ---- a sink that keeps to its contract --------------------------------------------------------------------

  /** A sink that confirms anything confirms the newest committable it was offered. */
  predicate NewestAct(s: Whole, a: Act)
    requires a.Commit? ==> C.Enabled(s.c, a.step)
  {
    a.Commit? && a.step.Publish? ==>
      CI.NewestConfirmed(C.Of(s.c.phase.offer, a.step.node), E.Confirms(s.c, a.step.node, a.step.published))
  }

  ghost predicate AllNewest(s: Whole, acts: seq<Act>)
    requires AllPossible(s, acts)
  {
    acts == [] || (AllNewest(s, acts[..|acts| - 1]) && NewestAct(Acts(s, acts[..|acts| - 1]), acts[|acts| - 1]))
  }

  lemma ActAlone(s: Whole, a: Act)
    requires Possible(s, a) && CI.Alone(s.c)
    ensures CI.Alone(Perform(s, a).c)
  {
    match a
    case Accept(node, recs) => CI.NextAlone(s.c, C.Accept(node, recs));
    case Commit(step) => CI.NextAlone(s.c, step);
    case Store(ok) => CI.NextAlone(s.c, C.Persist(ok));
    case CrashAll => CI.NextAlone(s.c, C.Crash);
    case _ =>
  }

  lemma {:induction false} NewestRuns(committers: seq<C.Node>, acts: seq<Act>)
    requires |committers| <= 1 && AllPossible(Begin(committers), acts) && AllNewest(Begin(committers), acts)
    ensures CI.Alone(Acts(Begin(committers), acts).c) && AllPrompt(Begin(committers), acts)
  {
    if acts == [] {
    } else {
      var init, a := acts[..|acts| - 1], acts[|acts| - 1];
      var s := Acts(Begin(committers), init);
      NewestRuns(committers, init);
      BeginInv(committers);
      ActsKeep(Begin(committers), init);
      ActAlone(s, a);
      if a.Commit? && a.step.Publish? {
        E.NewestIsPrompt(s.c, a.step.node, a.step.published);
      }
    }
  }

  /**
   Over every run with at most one committing sink, which keeps to its contract, and with a crash between
   any two acts: each record at or before a stored cursor was passed over or shed, abandoned, written,
   flushed durable, or behind a checkpoint at or below one its sink confirmed; or was lost before anybody
   took it in.
   */
  lemma StoredIsPublished(committers: seq<C.Node>, acts: seq<Act>, id: LaneID, o: int)
    requires |committers| <= 1 && AllPossible(Begin(committers), acts) && AllNewest(Begin(committers), acts)
    requires var p := Acts(Begin(committers), acts).p; id in p.cursors && 0 < o <= p.cursors[id]
    ensures var s := Acts(Begin(committers), acts);
            var x := Source(id, o);
            && s.fates.early == {}
            && (|| x in s.fates.dismissed || x in s.fates.abandoned || x in s.fates.written
                || x in s.fates.flushed || x in s.fates.published || x in s.p.lost)
  {
    NewestRuns(committers, acts);
    NothingEarly(committers, acts);
    StoredIsDelivered(committers, acts, id, o);
  }
}
