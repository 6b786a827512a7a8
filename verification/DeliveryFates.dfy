/** What the fates of the records a sink held mean, in the words of the sink. */
module DeliveryFates {
  import opened Records
  import opened PipelineSpec
  import opened Delivery
  import C = CommitSpec
  import CI = CommitInv
  import E = CommitEarly

  lemma {:induction false} DurableSpec(recs: seq<RecordID>, notDurable: set<RecordID>, r: RecordID)
    ensures r in C.Durable(recs, notDurable, true) <==> r in recs && r !in notDurable
  {
    if recs == [] {
    } else {
      DurableSpec(recs[..|recs| - 1], notDurable, r);
      assert recs == recs[..|recs| - 1] + [recs[|recs| - 1]];
    }
  }

  /** The record comes from x, the node held it, and the flush neither failed nor deferred it. */
  predicate MadeDurable(s: Whole, node: C.Node, flush: C.Flushed, r: RecordID, x: Source) {
    && r in s.p.origin && s.p.origin[r] == x && r in C.Get(s.c.deferred, node)
    && flush.Reported? && r !in flush.failed && r !in flush.deferred
  }

  /** Whatever the state: only a flush makes a record flushed, and only one it neither failed nor deferred. */
  lemma FlushedWasDurable(s: Whole, a: Act, x: Source)
    requires Possible(s, a) && x in Perform(s, a).fates.flushed && x !in s.fates.flushed
    ensures a.Commit? && a.step.FlushSink? && exists r :: MadeDurable(s, a.step.node, a.step.flush, r, x)
  {
    var now := Settled(s.c, a.step);
    var r :| r in now && r in s.p.origin && s.p.origin[r] == x;
    DurableSpec(C.Get(s.c.deferred, a.step.node), a.step.flush.NotDurable(), r);
    assert MadeDurable(s, a.step.node, a.step.flush, r, x);
  }

  /** The record comes from x, and its checkpoint is at or below that of a committable the sink says is published. */
  ghost predicate SaidPublished(s: Whole, node: C.Node, outs: seq<C.CommitOutcome>, c: C.Committable,
                                k: C.CheckpointID, r: RecordID, x: Source)
    requires s.c.phase.Publishing?
  {
    && r in s.p.origin && s.p.origin[r] == x && r in C.At(s.c.awaiting, k, node) && k <= c.checkpoint
    && c in s.c.phase.offer && c.node == node && CI.SaysPublished(outs, c.handle)
  }

  /** Whatever the state: a record is published only by a commit whose sink says that it, or a later one, is. */
  lemma PublishedWasConfirmed(s: Whole, a: Act, x: Source)
    requires Possible(s, a) && x in Perform(s, a).fates.published && x !in s.fates.published
    ensures a.Commit? && a.step.Publish? && a.step.published.Outcomes?
    ensures exists c, k, r :: SaidPublished(s, a.step.node, a.step.published.outs, c, k, r, x)
  {
    var node, published := a.step.node, a.step.published;
    var confirmed := E.Confirms(s.c, node, published);
    var r :| r in E.PublishedNow(s.c.awaiting, node, confirmed) && r in s.p.origin && s.p.origin[r] == x;
    var k :| k in s.c.awaiting && E.Vouched(confirmed, k) && r in C.At(s.c.awaiting, k, node);
    var c :| c in confirmed && k <= c.checkpoint;
    CI.WordsDecide(C.Of(s.c.phase.offer, node), published.outs);
    CI.OfSpec(s.c.phase.offer, node);
    assert SaidPublished(s, node, published.outs, c, k, r, x);
  }
}
