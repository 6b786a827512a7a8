/** What every step of the two-phase commit keeps. */
module CommitInv {
  import opened Records
  import opened CommitSpec
  import opened Counting

  // ---- counting ------------------------------------------------------------------------------------

  lemma {:induction false} CountSplit(s: seq<RecordID>, notDurable: set<RecordID>, r: RecordID)
    ensures Count(s, r) == Count(Durable(s, notDurable, true), r) + Count(Durable(s, notDurable, false), r)
  {
    if s == [] {
    } else {
      var init := s[..|s| - 1];
      CountSplit(init, notDurable, r);
      CountOne(Durable(init, notDurable, true), s[|s| - 1], r);
      CountOne(Durable(init, notDurable, false), s[|s| - 1], r);
    }
  }

  lemma HoldCount(d: Held, at: Node, recs: seq<RecordID>, node: Node, r: RecordID)
    ensures Count(Get(Hold(d, at, recs), node), r) ==
            Count(Get(d, node), r) + if node == at then Count(recs, r) else 0
  {
    CountAppend(Get(d, at), recs, r);
  }

  lemma ReturnCount(d: Held, at: Node, recs: seq<RecordID>, node: Node, r: RecordID)
    ensures Count(Get(Return(d, at, recs), node), r) ==
            Count(Get(d, node), r) + if node == at then Count(recs, r) else 0
  {
    CountAppend(recs, Get(d, at), r);
  }

  // ---- what awaits a commit -------------------------------------------------------------------------

  lemma AtAwait(aw: Awaiting, k: CheckpointID, node: Node, recs: seq<RecordID>, j: CheckpointID, n: Node)
    ensures At(Await(aw, k, node, recs), j, n) == if j == k && n == node then At(aw, k, node) + recs else At(aw, j, n)
  {}

  lemma AtRelease(aw: Awaiting, k: CheckpointID, node: Node, j: CheckpointID, n: Node)
    ensures At(Release(aw, k, node), j, n) == if j <= k && n == node then [] else At(aw, j, n)
  {
    assert j in aw && n in aw[j] && n != node ==> n in aw[j] - {node};
  }

  lemma {:induction false} AwaitCount(aw: Awaiting, k: CheckpointID, at: Node, recs: seq<RecordID>,
                                      upto: CheckpointID, node: Node, r: RecordID)
    ensures Count(Released(Await(aw, k, at, recs), upto, node), r) ==
            Count(Released(aw, upto, node), r) + if k <= upto && node == at then Count(recs, r) else 0
  {
    AtAwait(aw, k, at, recs, upto, node);
    var aw' := Await(aw, k, at, recs);
    CountAppend(At(aw, k, at), recs, r);
    if upto > 0 {
      AwaitCount(aw, k, at, recs, upto - 1, node, r);
      CountAppend(Released(aw, upto - 1, node), At(aw, upto, node), r);
      CountAppend(Released(aw', upto - 1, node), At(aw', upto, node), r);
    }
  }

  lemma {:induction false} ReleaseNone(aw: Awaiting, k: CheckpointID, at: Node, upto: CheckpointID, node: Node)
    requires upto <= k
    ensures Released(Release(aw, k, at), upto, node) == if node == at then [] else Released(aw, upto, node)
  {
    AtRelease(aw, k, at, upto, node);
    if upto > 0 {
      ReleaseNone(aw, k, at, upto - 1, node);
    }
  }

  /** What is released awaits a commit at the checkpoint or below. */
  lemma {:induction false} ReleasedSpec(aw: Awaiting, k: CheckpointID, node: Node, r: RecordID)
    ensures r in Released(aw, k, node) <==> exists j: nat :: j <= k && r in At(aw, j, node)
  {
    if k == 0 {
    } else {
      ReleasedSpec(aw, k - 1, node, r);
      if r in Released(aw, k - 1, node) {
        var j: nat :| j <= k - 1 && r in At(aw, j, node);
        assert j <= k && r in At(aw, j, node);
      }
    }
  }

  /** Beyond the last checkpoint nothing awaits. */
  lemma {:induction false} ReleasedBeyond(aw: Awaiting, k: CheckpointID, high: CheckpointID, node: Node)
    requires k <= high && forall j :: j in aw ==> j <= k
    ensures Released(aw, high, node) == Released(aw, k, node)
    decreases high
  {
    if k >= high {
    } else {
      ReleasedBeyond(aw, k, high - 1, node);
    }
  }

  // ---- committables ------------------------------------------------------------------------------------

  /** Some committable of the node is among them. */
  predicate Has(cs: seq<Committable>, node: Node) {
    exists i :: 0 <= i < |cs| && cs[i].node == node
  }

  lemma {:induction false} WithoutOthers(cs: seq<Committable>, at: Node, node: Node)
    requires node != at && Has(cs, node)
    ensures Has(Without(cs, at), node)
  {
    var init, c := cs[..|cs| - 1], cs[|cs| - 1];
    if c.node == node {
      assert Without(cs, at)[|Without(cs, at)| - 1] == c;
    } else {
      var i :| 0 <= i < |cs| && cs[i].node == node;
      assert init[i].node == node;
      WithoutOthers(init, at, node);
      var j :| 0 <= j < |Without(init, at)| && Without(init, at)[j].node == node;
      assert Without(cs, at)[j].node == node;
    }
  }

  lemma {:induction false} WithoutFrom(cs: seq<Committable>, at: Node)
    ensures forall c :: c in Without(cs, at) <==> c in cs && c.node != at
  {
    if cs == [] {
    } else {
      WithoutFrom(cs[..|cs| - 1], at);
      assert cs == cs[..|cs| - 1] + [cs[|cs| - 1]];
    }
  }

  /** Confirming drops the node's committables at the checkpoint and below, and no other. */
  lemma ConfirmDrops(p: Pending, k: CheckpointID, node: Node, j: CheckpointID, c: Committable)
    ensures c in Minted(Confirm(p, k, node), j) <==> c in Minted(p, j) && (j > k || c.node != node)
  {
    WithoutFrom(Minted(p, j), node);
  }

  lemma {:induction false} OfSpec(cs: seq<Committable>, node: Node)
    ensures forall c :: c in Of(cs, node) <==> c in cs && c.node == node
  {
    if cs == [] {
    } else {
      OfSpec(cs[..|cs| - 1], node);
      assert cs == cs[..|cs| - 1] + [cs[|cs| - 1]];
    }
  }

  lemma {:induction false} ConfirmedSpec(sent: seq<Committable>, a: map<Artifact, CommitAnswer>)
    ensures forall c :: c in Confirmed(sent, a) <==> c in sent && c.handle in a && Succeeds(a[c.handle])
  {
    if sent == [] {
    } else {
      ConfirmedSpec(sent[..|sent| - 1], a);
      assert sent == sent[..|sent| - 1] + [sent[|sent| - 1]];
    }
  }

  // ---- a sink's last word ------------------------------------------------------------------------------

  predicate SaysAt(outs: seq<CommitOutcome>, h: Artifact, d: CommitAnswer, i: nat) {
    i < |outs| && outs[i] == CommitOutcome(h, d) && forall j :: i < j < |outs| ==> outs[j].handle != h
  }

  /** The last answer for the handle is d. */
  ghost predicate Says(outs: seq<CommitOutcome>, h: Artifact, d: CommitAnswer) {
    exists i: nat :: SaysAt(outs, h, d, i)
  }

  /** The sink's last word is that the artifact is published, now or before. */
  ghost predicate SaysPublished(outs: seq<CommitOutcome>, h: Artifact) {
    Says(outs, h, Committed) || Says(outs, h, AlreadyCommitted)
  }

  /** The sink's last word stops the pipeline, whatever it says of other artifacts. */
  ghost predicate SaysRefused(outs: seq<CommitOutcome>, h: Artifact) {
    Says(outs, h, DeadLetter) || Says(outs, h, OutOfRange)
  }

  lemma {:induction false} AnswersSpec(outs: seq<CommitOutcome>, h: Artifact, d: CommitAnswer)
    ensures h in Answers(outs) && Answers(outs)[h] == d <==> Says(outs, h, d)
  {
    if outs == [] {
    } else {
      var n := |outs| - 1;
      AnswersSpec(outs[..n], h, d);
      if outs[n].handle == h {
        if outs[n].disposition == d {
          assert SaysAt(outs, h, d, n);
        }
      } else {
        if Says(outs[..n], h, d) {
          var i: nat :| SaysAt(outs[..n], h, d, i);
          assert SaysAt(outs, h, d, i);
        }
        if Says(outs, h, d) {
          var i: nat :| SaysAt(outs, h, d, i);
          assert SaysAt(outs[..n], h, d, i);
        }
      }
    }
  }

  /** What is confirmed, and what stops the pipeline, by the sink's words. */
  lemma WordsDecide(sent: seq<Committable>, outs: seq<CommitOutcome>)
    ensures forall c :: c in Confirmed(sent, Answers(outs)) <==> c in sent && SaysPublished(outs, c.handle)
    ensures Stops(sent, Answers(outs)) <==>
            || (exists c :: c in sent && SaysRefused(outs, c.handle))
            || ((exists c :: c in sent && Says(outs, c.handle, Aborted)) &&
                (forall c :: c in sent ==> !SaysPublished(outs, c.handle)))
  {
    var a := Answers(outs);
    ConfirmedSpec(sent, a);
    forall c: Committable
      ensures (c.handle in a && Succeeds(a[c.handle])) <==> SaysPublished(outs, c.handle)
      ensures (c.handle in a && Refuses(a[c.handle])) <==> SaysRefused(outs, c.handle)
      ensures (c.handle in a && a[c.handle] == Aborted) <==> Says(outs, c.handle, Aborted)
    {
      AnswersSpec(outs, c.handle, Committed);
      AnswersSpec(outs, c.handle, AlreadyCommitted);
      AnswersSpec(outs, c.handle, DeadLetter);
      AnswersSpec(outs, c.handle, OutOfRange);
      AnswersSpec(outs, c.handle, Aborted);
    }
    if Confirmed(sent, a) != [] {
      assert Confirmed(sent, a)[0] in Confirmed(sent, a);
    }
  }

  lemma {:induction false} HighSpec(id: CheckpointID, cs: seq<Committable>)
    ensures id <= High(id, cs) && (forall c :: c in cs ==> c.checkpoint <= High(id, cs))
    ensures High(id, cs) == id || exists c :: c in cs && c.checkpoint == High(id, cs)
  {
    if cs == [] {
    } else {
      HighSpec(id, cs[..|cs| - 1]);
      assert cs == cs[..|cs| - 1] + [cs[|cs| - 1]];
    }
  }

  /** What is offered is exactly what is pending. */
  lemma {:induction false} OfferSpec(p: Pending, k: CheckpointID)
    ensures forall c :: c in Offer(p, k) <==> exists j: nat :: j <= k && c in Minted(p, j)
  {
    if k == 0 {
    } else {
      OfferSpec(p, k - 1);
      assert Offer(p, k) == Offer(p, k - 1) + Minted(p, k);
      forall c
        ensures c in Offer(p, k) <==> exists j: nat :: j <= k && c in Minted(p, j)
      {
        if c in Offer(p, k - 1) {
          var j: nat :| j <= k - 1 && c in Minted(p, j);
          assert j <= k && c in Minted(p, j);
        }
      }
    }
  }

  /** Each committable is filed under its own checkpoint. */
  predicate Filed(p: Pending) {
    forall k, c :: k in p && c in p[k] ==> c.checkpoint == k
  }

  predicate Ascending(cs: seq<Committable>) {
    forall i, j :: 0 <= i < j < |cs| ==> cs[i].checkpoint <= cs[j].checkpoint
  }

  lemma {:induction false} OfferAscends(p: Pending, k: CheckpointID)
    requires Filed(p)
    ensures Ascending(Offer(p, k)) && forall c :: c in Offer(p, k) ==> c.checkpoint <= k
  {
    if k == 0 {
    } else {
      OfferAscends(p, k - 1);
      var before, here, all := Offer(p, k - 1), Minted(p, k), Offer(p, k);
      forall i, j | 0 <= i < j < |all|
        ensures all[i].checkpoint <= all[j].checkpoint
      {
        assert i < |before| ==> before[i] in before;
        assert j >= |before| ==> here[j - |before|] in here;
        assert i >= |before| ==> here[i - |before|] in here;
      }
    }
  }

  // ---- the invariant -------------------------------------------------------------------------------

  /** Checkpoint k of the node is covered: a committable for it is pending, or was dropped by a failed preparation. */
  predicate CoveredBy(s: State, k: CheckpointID, node: Node) {
    || Has(Minted(s.pending, k), node)
    || (k, node) in s.orphans
    || (s.phase.Preparing? && k == s.id && Has(s.phase.minted, node))
  }

  ghost predicate Covers(s: State) {
    forall k: CheckpointID, node: Node :: At(s.awaiting, k, node) != [] ==> CoveredBy(s, k, node)
  }

  /** Committables know where they were minted; ids do not run ahead. */
  predicate PendingOK(p: Pending, id: CheckpointID) {
    forall k :: k in p ==> k <= id && forall c :: c in p[k] ==> c.checkpoint == k
  }

  predicate PhaseOK(s: State) {
    match s.phase
    case Preparing(_, minted) => forall c :: c in minted ==> c.checkpoint == s.id
    case Publishing(offer, _) =>
      && (forall c :: c in offer ==> c in Minted(s.durable, c.checkpoint))
      && (forall k, c :: k in s.pending && c in s.pending[k] ==> c in offer)
    case _ => true
  }

  predicate IdsOK(s: State) {
    && s.durableId <= s.id
    && PendingOK(s.pending, s.id) && PendingOK(s.durable, s.durableId)
    && (forall k :: k in s.awaiting ==> k <= s.id)
  }

  /** Every record the node's sink accepted is deferred, awaiting a commit or settled, and only one of them. */
  predicate Partitioned(s: State, node: Node, r: RecordID) {
    Count(Get(s.accepted, node), r) ==
    Count(Get(s.deferred, node), r) + Count(Released(s.awaiting, s.id, node), r) + Count(Get(s.settled, node), r)
  }

  ghost predicate AllPartitioned(s: State) {
    forall node: Node, r: RecordID :: Partitioned(s, node, r)
  }

  ghost predicate Inv(s: State) {
    IdsOK(s) && PhaseOK(s) && Covers(s) && AllPartitioned(s)
  }

  // ---- each record in one place ----------------------------------------------------------------------

  lemma AcceptPartition(s: State, at: Node, recs: seq<RecordID>, node: Node, r: RecordID)
    requires Partitioned(s, node, r)
    ensures Partitioned(Next(s, Accept(at, recs)), node, r)
  {
    HoldCount(s.deferred, at, recs, node, r);
    HoldCount(s.accepted, at, recs, node, r);
  }

  lemma FlushPartition(s: State, at: Node, flush: Flushed, node: Node, r: RecordID)
    requires Partitioned(s, node, r)
    ensures Partitioned(DoFlush(s, at, flush), node, r)
  {
    if flush.Reported? {
      var held := Get(s.deferred, at);
      CountSplit(held, flush.NotDurable(), r);
      ReturnCount(Remaining(s.deferred, at), at, Durable(held, flush.NotDurable(), false), node, r);
      HoldCount(s.settled, at, Durable(held, flush.NotDurable(), true), node, r);
    }
  }

  /** What a sink held is now its committables' responsibility. */
  lemma AwaitPartition(s: State, s': State, at: Node, node: Node, r: RecordID)
    requires Partitioned(s, node, r) && s'.id == s.id && s'.accepted == s.accepted && s'.settled == s.settled
    requires s'.deferred == Remaining(s.deferred, at) && s'.awaiting == Await(s.awaiting, s.id, at, Get(s.deferred, at))
    ensures Partitioned(s', node, r)
  {
    AwaitCount(s.awaiting, s.id, at, Get(s.deferred, at), s.id, node, r);
    if node == at {
      assert Get(s'.deferred, node) == [];
    } else {
      assert Get(s'.deferred, node) == Get(s.deferred, node);
    }
  }

  lemma PreparePartition(s: State, prepared: Prepared, node: Node, r: RecordID)
    requires s.phase.Preparing? && s.phase.todo != [] && Partitioned(s, node, r)
    ensures Partitioned(DoPrepare(s, prepared), node, r)
  {
    if prepared.Answered? && prepared.handles != [] {
      var minted := s.phase.minted + Stamp(prepared.handles, s.id, s.phase.todo[0]);
      MintsPartition(s, s.phase.todo[0], s.phase.todo[1..], minted, node, r);
    }
  }

  lemma MintsPartition(s: State, at: Node, rest: seq<Node>, minted: seq<Committable>, node: Node, r: RecordID)
    requires Partitioned(s, node, r)
    ensures Partitioned(Mints(s, at, rest, minted), node, r)
  {
    AwaitPartition(s, Mints(s, at, rest, minted), at, node, r);
  }

  /** What a commit released is settled. */
  lemma ReleasePartition(s: State, s': State, at: Node, high: CheckpointID, node: Node, r: RecordID)
    requires Partitioned(s, node, r) && s'.id == s.id <= high && s'.accepted == s.accepted && s'.deferred == s.deferred
    requires forall k :: k in s.awaiting ==> k <= s.id
    requires s'.awaiting == Release(s.awaiting, high, at)
    requires s'.settled == Hold(s.settled, at, Released(s.awaiting, high, at))
    ensures Partitioned(s', node, r)
  {
    HoldCount(s.settled, at, Released(s.awaiting, high, at), node, r);
    ReleaseNone(s.awaiting, high, at, s.id, node);
    ReleasedBeyond(s.awaiting, s.id, high, at);
  }

  lemma ConcludePartition(s: State, at: Node, confirmed: seq<Committable>, node: Node, r: RecordID)
    requires IdsOK(s) && Partitioned(s, node, r)
    ensures Partitioned(Conclude(s, at, confirmed), node, r)
  {
    if confirmed != [] {
      HighSpec(s.id, confirmed);
      ReleasePartition(s, Conclude(s, at, confirmed), at, High(s.id, confirmed), node, r);
    }
  }

  lemma PublishPartition(s: State, at: Node, published: Published, node: Node, r: RecordID)
    requires s.phase.Publishing? && IdsOK(s) && Partitioned(s, node, r)
    ensures Partitioned(DoPublish(s, at, published), node, r)
  {
    if published.Outcomes? {
      var s1 := s.(phase := s.phase.(nodes := s.phase.nodes - {at}));
      assert Partitioned(s1, node, r);
      ConcludePartition(s1, at, Confirmed(Of(s.phase.offer, at), Answers(published.outs)), node, r);
    }
  }

  lemma NextPartition(s: State, step: Step, node: Node, r: RecordID)
    requires Enabled(s, step) && IdsOK(s) && Partitioned(s, node, r)
    ensures Partitioned(Next(s, step), node, r)
  {
    match step
    case Accept(at, recs) => AcceptPartition(s, at, recs, node, r);
    case FlushSink(at, flush) => FlushPartition(s, at, flush, node, r);
    case Begin => ReleasedBeyond(s.awaiting, s.id, s.id + 1, node);
    case Prepare(prepared) => PreparePartition(s, prepared, node, r);
    case Publish(at, published) => PublishPartition(s, at, published, node, r);
    case Crash => NothingAwaits(map[], s.durableId, node);
    case _ =>
  }

  lemma {:induction false} NothingAwaits(aw: Awaiting, k: CheckpointID, node: Node)
    requires aw == map[]
    ensures Released(aw, k, node) == []
  {
    if k == 0 {
    } else {
      NothingAwaits(aw, k - 1, node);
    }
  }

  // ---- ids and phases --------------------------------------------------------------------------------

  lemma ConfirmOK(p: Pending, k: CheckpointID, node: Node, id: CheckpointID)
    requires PendingOK(p, id)
    ensures PendingOK(Confirm(p, k, node), id)
    ensures forall j, c :: j in Confirm(p, k, node) && c in Confirm(p, k, node)[j] ==> j in p && c in p[j]
  {
    forall j | j in Confirm(p, k, node)
      ensures j in p && forall c :: c in Confirm(p, k, node)[j] ==> c in p[j]
    {
      WithoutFrom(p[j], node);
    }
  }

  lemma ConcludeIds(s: State, at: Node, confirmed: seq<Committable>)
    requires IdsOK(s) && PhaseOK(s)
    ensures IdsOK(Conclude(s, at, confirmed)) && PhaseOK(Conclude(s, at, confirmed))
  {
    ConfirmOK(s.pending, High(s.id, confirmed), at, s.id);
  }

  lemma PublishIds(s: State, s': State, at: Node, published: Published)
    requires s.phase.Publishing? && s' == DoPublish(s, at, published) && IdsOK(s) && PhaseOK(s)
    ensures IdsOK(s') && PhaseOK(s')
  {
    if published.Outcomes? {
      var s1 := s.(phase := s.phase.(nodes := s.phase.nodes - {at}));
      assert PhaseOK(s1);
      ConcludeIds(s1, at, Confirmed(Of(s.phase.offer, at), Answers(published.outs)));
    }
  }

  lemma PersistPhase(s: State)
    requires s.phase.Staged? && IdsOK(s)
    ensures IdsOK(Next(s, Persist(true))) && PhaseOK(Next(s, Persist(true)))
  {
    OfferSpec(s.pending, s.id);
    forall k, c | k in s.pending && c in s.pending[k]
      ensures c in Offer(s.pending, s.id)
    {
      assert k <= s.id && c in Minted(s.pending, k);
    }
  }

  lemma MintsIds(s: State, at: Node, rest: seq<Node>, more: seq<Committable>)
    requires s.phase.Preparing? && IdsOK(s) && PhaseOK(s) && forall c :: c in more ==> c.checkpoint == s.id
    ensures var s' := Mints(s, at, rest, s.phase.minted + more); IdsOK(s') && PhaseOK(s')
  {
    assert forall c :: c in s.phase.minted + more ==> c in s.phase.minted || c in more;
  }

  lemma PrepareIds(s: State, prepared: Prepared)
    requires s.phase.Preparing? && s.phase.todo != [] && IdsOK(s) && PhaseOK(s)
    ensures IdsOK(DoPrepare(s, prepared)) && PhaseOK(DoPrepare(s, prepared))
  {
    if prepared.Answered? && prepared.handles != [] {
      StampHas(prepared.handles, s.id, s.phase.todo[0]);
      MintsIds(s, s.phase.todo[0], s.phase.todo[1..], Stamp(prepared.handles, s.id, s.phase.todo[0]));
    }
  }

  lemma NextIds(s: State, step: Step)
    requires Enabled(s, step) && IdsOK(s) && PhaseOK(s)
    ensures IdsOK(Next(s, step)) && PhaseOK(Next(s, step))
  {
    match step
    case Prepare(prepared) => PrepareIds(s, prepared);
    case Publish(at, published) => PublishIds(s, Next(s, step), at, published);
    case Persist(ok) => if ok { PersistPhase(s); }
    case _ =>
  }

  // ---- what awaits is covered --------------------------------------------------------------------------

  lemma HasMore(cs: seq<Committable>, more: seq<Committable>, node: Node)
    requires Has(cs, node) || Has(more, node)
    ensures Has(cs + more, node)
  {
    if Has(cs, node) {
      var i :| 0 <= i < |cs| && cs[i].node == node;
      assert (cs + more)[i].node == node;
    } else {
      var i :| 0 <= i < |more| && more[i].node == node;
      assert (cs + more)[|cs| + i].node == node;
    }
  }

  lemma StampHas(handles: seq<Artifact>, id: CheckpointID, at: Node)
    requires handles != []
    ensures Has(Stamp(handles, id, at), at)
    ensures forall c :: c in Stamp(handles, id, at) ==> c.checkpoint == id
  {
    assert Stamp(handles, id, at)[0].node == at;
  }

  lemma MintsCovers(
    s: State, at: Node, rest: seq<Node>, more: seq<Committable>, k: CheckpointID, node: Node)
    requires s.phase.Preparing? && Has(more, at)
    requires At(s.awaiting, k, node) != [] ==> CoveredBy(s, k, node)
    ensures var s' := Mints(s, at, rest, s.phase.minted + more);
            At(s'.awaiting, k, node) != [] ==> CoveredBy(s', k, node)
  {
    AtAwait(s.awaiting, s.id, at, Get(s.deferred, at), k, node);
    if Has(s.phase.minted, node) || node == at {
      HasMore(s.phase.minted, more, node);
    }
  }

  lemma PrepareCovers(s: State, prepared: Prepared, k: CheckpointID, node: Node)
    requires s.phase.Preparing? && s.phase.todo != []
    requires At(s.awaiting, k, node) != [] ==> CoveredBy(s, k, node)
    ensures var s' := DoPrepare(s, prepared); At(s'.awaiting, k, node) != [] ==> CoveredBy(s', k, node)
  {
    if prepared.Failed? {
      if k == s.id && Has(s.phase.minted, node) {
        assert node in Nodes(s.phase.minted);
      }
    } else if prepared.handles != [] {
      StampHas(prepared.handles, s.id, s.phase.todo[0]);
      MintsCovers(s, s.phase.todo[0], s.phase.todo[1..], Stamp(prepared.handles, s.id, s.phase.todo[0]), k, node);
    }
  }

  lemma StageCovers(s: State, k: CheckpointID, node: Node)
    requires s.phase.Preparing? && s.phase.todo == [] && CoveredBy(s, k, node)
    ensures CoveredBy(Next(s, StageAll), k, node)
  {
    if k == s.id && (Has(Minted(s.pending, k), node) || Has(s.phase.minted, node)) {
      HasMore(Minted(s.pending, k), s.phase.minted, node);
      assert s.phase.minted == [] ==> Minted(s.pending, k) + s.phase.minted == Minted(s.pending, k);
    }
  }

  lemma ConcludeCovers(s: State, at: Node, confirmed: seq<Committable>, k: CheckpointID, node: Node)
    requires IdsOK(s) && (At(s.awaiting, k, node) != [] ==> CoveredBy(s, k, node))
    ensures var s' := Conclude(s, at, confirmed); At(s'.awaiting, k, node) != [] ==> CoveredBy(s', k, node)
  {
    if confirmed != [] {
      var high := High(s.id, confirmed);
      HighSpec(s.id, confirmed);
      AtRelease(s.awaiting, high, at, k, node);
      if node != at && Has(Minted(s.pending, k), node) {
        WithoutOthers(s.pending[k], at, node);
      }
    }
  }

  lemma PublishCovers(s: State, at: Node, published: Published, k: CheckpointID, node: Node)
    requires s.phase.Publishing? && IdsOK(s) && (At(s.awaiting, k, node) != [] ==> CoveredBy(s, k, node))
    ensures var s' := DoPublish(s, at, published); At(s'.awaiting, k, node) != [] ==> CoveredBy(s', k, node)
  {
    if published.Outcomes? {
      var s1 := s.(phase := s.phase.(nodes := s.phase.nodes - {at}));
      assert At(s1.awaiting, k, node) != [] ==> CoveredBy(s1, k, node);
      ConcludeCovers(s1, at, Confirmed(Of(s.phase.offer, at), Answers(published.outs)), k, node);
    }
  }

  lemma NextCovers(s: State, step: Step, k: CheckpointID, node: Node)
    requires Enabled(s, step) && IdsOK(s) && (At(s.awaiting, k, node) != [] ==> CoveredBy(s, k, node))
    ensures At(Next(s, step).awaiting, k, node) != [] ==> CoveredBy(Next(s, step), k, node)
  {
    match step
    case Prepare(prepared) => PrepareCovers(s, prepared, k, node);
    case Publish(at, published) => PublishCovers(s, at, published, k, node);
    case StageAll => if CoveredBy(s, k, node) { StageCovers(s, k, node); }
    case _ =>
  }

  // ---- runs -----------------------------------------------------------------------------------------------

  lemma NextKeeps(s: State, step: Step)
    requires Inv(s) && Enabled(s, step)
    ensures Inv(Next(s, step))
  {
    NextIds(s, step);
    forall k: CheckpointID, node: Node | At(Next(s, step).awaiting, k, node) != []
      ensures CoveredBy(Next(s, step), k, node)
    {
      NextCovers(s, step, k, node);
    }
    forall node: Node, r: RecordID
      ensures Partitioned(Next(s, step), node, r)
    {
      NextPartition(s, step, node, r);
    }
  }

  lemma StartInv(committers: seq<Node>)
    ensures Inv(Start(committers))
  {}

  lemma {:induction false} RunKeeps(s: State, steps: seq<Step>)
    requires Inv(s) && AllEnabled(s, steps)
    ensures Inv(Run(s, steps))
  {
    if steps == [] {
    } else {
      RunKeeps(s, steps[..|steps| - 1]);
      NextKeeps(Run(s, steps[..|steps| - 1]), steps[|steps| - 1]);
    }
  }

  /** Over every run: whatever is handed to Commit is in the checkpoint that is durable by then. */
  lemma CommitsAreDurable(committers: seq<Node>, steps: seq<Step>, node: Node, c: Committable)
    requires AllEnabled(Start(committers), steps)
    requires var s := Run(Start(committers), steps); s.phase.Publishing? && c in Of(s.phase.offer, node)
    ensures var s := Run(Start(committers), steps);
            c.node == node && c.checkpoint in s.durable && c in s.durable[c.checkpoint]
  {
    StartInv(committers);
    RunKeeps(Start(committers), steps);
    OfSpec(Run(Start(committers), steps).phase.offer, node);
  }

  /** Over every run: a record the sink accepted is in exactly as many places as it was accepted times. */
  lemma EachRecordInOnePlace(committers: seq<Node>, steps: seq<Step>, node: Node, r: RecordID)
    requires AllEnabled(Start(committers), steps)
    ensures Partitioned(Run(Start(committers), steps), node, r)
  {
    StartInv(committers);
    RunKeeps(Start(committers), steps);
  }

  /** With one committing sink a failed preparation drops nothing. */
  predicate Alone(s: State) {
    && |s.committers| <= 1 && s.orphans == {}
    && (s.phase.Preparing? && s.phase.todo != [] ==> s.phase.minted == [] && |s.phase.todo| == 1)
  }

  lemma PrepareAlone(s: State, prepared: Prepared)
    requires s.phase.Preparing? && s.phase.todo != [] && Alone(s)
    ensures Alone(DoPrepare(s, prepared))
  {
    assert Nodes(s.phase.minted) == {};
  }

  lemma NextAlone(s: State, step: Step)
    requires Enabled(s, step) && Alone(s)
    ensures Alone(Next(s, step))
  {
    if step.Prepare? {
      PrepareAlone(s, step.prepared);
    } else if step.Publish? {
      assert Next(s, step) == DoPublish(s, step.node, step.published);
    } else if step.FlushSink? {
      assert Next(s, step) == DoFlush(s, step.node, step.flush);
    }
  }

  lemma {:induction false} RunAlone(s: State, steps: seq<Step>)
    requires AllEnabled(s, steps) && Alone(s)
    ensures Alone(Run(s, steps))
  {
    if steps == [] {
    } else {
      RunAlone(s, steps[..|steps| - 1]);
      NextAlone(Run(s, steps[..|steps| - 1]), steps[|steps| - 1]);
    }
  }

  /**
   Over every run: whatever a node awaits under a checkpoint has a committable pending under it,
   once the checkpoint is staged, unless its preparation failed at another sink; with one
   committing sink there is no such exception.
   */
  lemma AwaitingIsPending(committers: seq<Node>, steps: seq<Step>, k: CheckpointID, node: Node)
    requires AllEnabled(Start(committers), steps)
    requires var s := Run(Start(committers), steps); At(s.awaiting, k, node) != [] && !s.phase.Preparing?
    ensures var s := Run(Start(committers), steps);
            && (Has(Minted(s.pending, k), node) || (k, node) in s.orphans)
            && (|committers| <= 1 ==> Has(Minted(s.pending, k), node))
  {
    StartInv(committers);
    RunKeeps(Start(committers), steps);
    assert CoveredBy(Run(Start(committers), steps), k, node);
    if |committers| <= 1 {
      RunAlone(Start(committers), steps);
    }
  }

  /** What a publication changes of the tables and of what is settled. */
  predicate Settles(s: State, t: State) { t.settled != s.settled || t.awaiting != s.awaiting || t.pending != s.pending }

  /**
   Over every run: a publication settles, releases or confirms anything only if the sink's last word on some
   committable it was sent is that it is published, and on none of them that it is refused.
   */
  lemma SettlesOnlyPublished(committers: seq<Node>, steps: seq<Step>, node: Node, published: Published)
    requires AllEnabled(Start(committers), steps)
    requires var s := Run(Start(committers), steps);
             Enabled(s, Publish(node, published)) && Settles(s, Next(s, Publish(node, published)))
    ensures var s := Run(Start(committers), steps);
            && published.Outcomes?
            && (exists c :: c in s.phase.offer && c.node == node && SaysPublished(published.outs, c.handle))
            && (forall c :: c in s.phase.offer && c.node == node ==> !SaysRefused(published.outs, c.handle))
  {
    PublishedWords(Run(Start(committers), steps), node, published);
  }

  /** An answer that confirms nothing, or stops the pipeline, changes nothing. */
  lemma ChangesConfirm(s: State, node: Node, published: Published)
    requires Enabled(s, Publish(node, published)) && Settles(s, DoPublish(s, node, published))
    ensures published.Outcomes? && !Stops(Of(s.phase.offer, node), Answers(published.outs))
    ensures Confirmed(Of(s.phase.offer, node), Answers(published.outs)) != []
  {}

  lemma PublishedWords(s: State, node: Node, published: Published)
    requires Enabled(s, Publish(node, published)) && Settles(s, DoPublish(s, node, published))
    ensures published.Outcomes?
    ensures exists c :: c in s.phase.offer && c.node == node && SaysPublished(published.outs, c.handle)
    ensures forall c :: c in s.phase.offer && c.node == node ==> !SaysRefused(published.outs, c.handle)
  {
    ChangesConfirm(s, node, published);
    var sent := Of(s.phase.offer, node);
    var confirmed := Confirmed(sent, Answers(published.outs));
    WordsDecide(sent, published.outs);
    OfSpec(s.phase.offer, node);
    var c := confirmed[0];
    assert c in confirmed;
    assert c in s.phase.offer && c.node == node && SaysPublished(published.outs, c.handle);
  }

  /** A sink that confirms anything confirms the newest committable it was offered. */
  predicate NewestConfirmed(sent: seq<Committable>, confirmed: seq<Committable>) {
    confirmed == [] || exists c :: c in confirmed && forall x :: x in sent ==> x.checkpoint <= c.checkpoint
  }

  lemma ReleasedIsConfirmedHere(s: State, node: Node, outs: seq<CommitOutcome>, k: CheckpointID)
    requires IdsOK(s) && PhaseOK(s) && s.phase.Publishing? && CoveredBy(s, k, node) && (k, node) !in s.orphans
    requires var sent := Of(s.phase.offer, node);
             var confirmed := Confirmed(sent, Answers(outs));
             confirmed != [] && NewestConfirmed(sent, confirmed)
    ensures exists c :: c in Confirmed(Of(s.phase.offer, node), Answers(outs)) && k <= c.checkpoint
    ensures Has(Minted(s.durable, k), node)
  {
    var sent := Of(s.phase.offer, node);
    var i :| 0 <= i < |Minted(s.pending, k)| && Minted(s.pending, k)[i].node == node;
    var x := Minted(s.pending, k)[i];
    OfSpec(s.phase.offer, node);
    assert x in s.pending[k];
    assert x in sent;
    assert x in Minted(s.durable, k);
    var c :| c in Confirmed(sent, Answers(outs)) && forall y :: y in sent ==> y.checkpoint <= c.checkpoint;
    assert k <= c.checkpoint;
  }

  /**
   Over every run with one committing sink that keeps to its contract: a commit settles records only
   under checkpoints at or below one it confirmed, and a committable for each is in the durable
   checkpoint.
   */
  lemma ReleasedIsConfirmed(committers: seq<Node>, steps: seq<Step>, node: Node, outs: seq<CommitOutcome>,
                            k: CheckpointID)
    requires |committers| <= 1 && AllEnabled(Start(committers), steps)
    requires var s := Run(Start(committers), steps);
             && Enabled(s, Publish(node, Outcomes(outs)))
             && At(s.awaiting, k, node) != []
             && At(Next(s, Publish(node, Outcomes(outs))).awaiting, k, node) == []
             && NewestConfirmed(Of(s.phase.offer, node), Confirmed(Of(s.phase.offer, node), Answers(outs)))
    ensures var s := Run(Start(committers), steps);
            && (exists c :: c in s.phase.offer && c.node == node && SaysPublished(outs, c.handle) && k <= c.checkpoint)
            && Has(Minted(s.durable, k), node)
  {
    StartInv(committers);
    RunKeeps(Start(committers), steps);
    RunAlone(Start(committers), steps);
    var s := Run(Start(committers), steps);
    assert CoveredBy(s, k, node);
    ReleasedIsConfirmedHere(s, node, outs, k);
    OfSpec(s.phase.offer, node);
    WordsDecide(Of(s.phase.offer, node), outs);
  }

  /**
   The contract is needed: any confirmation at all settles everything the node awaits, whichever
   checkpoint was confirmed.
   */
  lemma AnyConfirmationReleasesAll(committers: seq<Node>, steps: seq<Step>, node: Node, outs: seq<CommitOutcome>,
                                   k: CheckpointID)
    requires AllEnabled(Start(committers), steps)
    requires var s := Run(Start(committers), steps);
             && Enabled(s, Publish(node, Outcomes(outs)))
             && !Stops(Of(s.phase.offer, node), Answers(outs))
             && Confirmed(Of(s.phase.offer, node), Answers(outs)) != []
    ensures At(Next(Run(Start(committers), steps), Publish(node, Outcomes(outs))).awaiting, k, node) == []
  {
    StartInv(committers);
    RunKeeps(Start(committers), steps);
    var s := Run(Start(committers), steps);
    var confirmed := Confirmed(Of(s.phase.offer, node), Answers(outs));
    HighSpec(s.id, confirmed);
    AtRelease(s.awaiting, High(s.id, confirmed), node, k, node);
  }

  /**
   One committing sink is needed: with any two, the second failing to prepare leaves the first's
   records awaiting a commit with no committable pending for them.
   */
  lemma FailedPreparationOrphans(a: Node, b: Node, r: RecordID, h: Artifact)
    requires a != b
    ensures var s := Next(Next(Start([a, b]), Accept(a, [r])), Begin);
            && s.phase == Preparing([a, b], [])
            && var s1 := Next(s, Prepare(Answered([h])));
               && s1.phase.Preparing? && s1.phase.todo == [b]
               && var s2 := Next(s1, Prepare(Failed));
                  s2.phase.Idle? && At(s2.awaiting, 1, a) == [r] && !Has(Minted(s2.pending, 1), a)
  {}
}
