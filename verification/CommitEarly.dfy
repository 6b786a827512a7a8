/** Which of the records a commit settles were published by then, and which were settled early. */
module CommitEarly {
  import opened Records
  import opened CommitSpec
  import opened CommitInv

  /** Some committable the sink confirmed was minted at checkpoint k or later. */
  predicate Vouched(confirmed: seq<Committable>, k: CheckpointID) {
    exists c :: c in confirmed && k <= c.checkpoint
  }

  /** The committables a sink's answer confirms, when the answer is acted on. */
  function Confirms(s: State, node: Node, published: Published): seq<Committable>
    requires s.phase.Publishing?
  {
    var sent := Of(s.phase.offer, node);
    if published.CommitFailed? || Stops(sent, Answers(published.outs)) then []
    else Confirmed(sent, Answers(published.outs))
  }

  /** What the node awaits under a checkpoint the sink vouched for. */
  function PublishedNow(aw: Awaiting, node: Node, confirmed: seq<Committable>): set<RecordID> {
    set k, r | k in aw && Vouched(confirmed, k) && r in At(aw, k, node) :: r
  }

  /** What the node awaits under any other checkpoint; one confirmation settles it all the same. */
  function EarlyNow(aw: Awaiting, node: Node, confirmed: seq<Committable>): set<RecordID> {
    set k, r | k in aw && confirmed != [] && !Vouched(confirmed, k) && r in At(aw, k, node) :: r
  }

  /** The node awaits nothing above the highest checkpoint its sink confirmed. */
  predicate Prompt(aw: Awaiting, node: Node, confirmed: seq<Committable>) {
    confirmed == [] || forall k :: k in aw && At(aw, k, node) != [] ==> k <= High(0, confirmed)
  }

  lemma VouchedSpec(confirmed: seq<Committable>, k: CheckpointID)
    requires confirmed != []
    ensures Vouched(confirmed, k) <==> k <= High(0, confirmed)
  {
    HighSpec(0, confirmed);
    assert confirmed[0] in confirmed;
  }

  /** A commit settles a record early exactly when the node awaits a checkpoint above the highest it confirmed. */
  lemma EarlyExactly(aw: Awaiting, node: Node, confirmed: seq<Committable>)
    ensures EarlyNow(aw, node, confirmed) == {} <==> Prompt(aw, node, confirmed)
  {
    if confirmed != [] {
      forall k | k in aw && At(aw, k, node) != []
        ensures k <= High(0, confirmed) || EarlyNow(aw, node, confirmed) != {}
      {
        VouchedSpec(confirmed, k);
        if k > High(0, confirmed) {
          var r := At(aw, k, node)[0];
          assert r in At(aw, k, node);
          assert r in EarlyNow(aw, node, confirmed);
        }
      }
      forall k, r | k in aw && !Vouched(confirmed, k) && r in At(aw, k, node)
        ensures k > High(0, confirmed) && At(aw, k, node) != []
      {
        VouchedSpec(confirmed, k);
      }
    }
  }

  lemma {:induction false} ReleasedFrom(aw: Awaiting, high: CheckpointID, node: Node, r: RecordID)
    ensures r in Released(aw, high, node) <==> exists k: nat :: k <= high && r in At(aw, k, node)
  {
    if high == 0 {
    } else {
      ReleasedFrom(aw, high - 1, node, r);
      assert Released(aw, high, node) == Released(aw, high - 1, node) + At(aw, high, node);
      if r in Released(aw, high - 1, node) {
        var k: nat :| k <= high - 1 && r in At(aw, k, node);
        assert k <= high;
      }
    }
  }

  /** Whatever a commit settles is one or the other. */
  lemma SettledSplits(s: State, node: Node, confirmed: seq<Committable>, r: RecordID)
    requires IdsOK(s) && confirmed != []
    ensures r in Released(s.awaiting, High(s.id, confirmed), node) <==>
            r in PublishedNow(s.awaiting, node, confirmed) || r in EarlyNow(s.awaiting, node, confirmed)
  {
    var high := High(s.id, confirmed);
    HighSpec(s.id, confirmed);
    ReleasedFrom(s.awaiting, high, node, r);
    if r in Released(s.awaiting, high, node) {
      var k: nat :| k <= high && r in At(s.awaiting, k, node);
      assert k in s.awaiting;
    }
    forall k | k in s.awaiting
      ensures k <= high
    {
    }
  }

  /** One committing sink that keeps to its contract is prompt. */
  lemma NewestIsPrompt(s: State, node: Node, published: Published)
    requires IdsOK(s) && PhaseOK(s) && Covers(s) && Alone(s) && s.phase.Publishing?
    requires NewestConfirmed(Of(s.phase.offer, node), Confirms(s, node, published))
    ensures Prompt(s.awaiting, node, Confirms(s, node, published))
  {
    var confirmed := Confirms(s, node, published);
    if confirmed != [] {
      forall k | k in s.awaiting && At(s.awaiting, k, node) != []
        ensures k <= High(0, confirmed)
      {
        assert CoveredBy(s, k, node);
        ReleasedIsConfirmedHere(s, node, published.outs, k);
        VouchedSpec(confirmed, k);
      }
    }
  }

  // ---- a run that settles a record nobody published -------------------------------------------------------

  /** A whole cycle up to the sink's answer. */
  function Cycle(node: Node, r: RecordID, h: Artifact): seq<Step> {
    [Accept(node, [r]), Begin, Prepare(Answered([h])), StageAll, Persist(true)]
  }

  function Single(node: Node, r: RecordID): Held { map[node := [r]] }

  lemma Extend(s: State, steps: seq<Step>, step: Step, more: seq<Step>)
    requires AllEnabled(s, steps) && Enabled(Run(s, steps), step) && more == steps + [step]
    ensures AllEnabled(s, more) && Run(s, more) == Next(Run(s, steps), step)
  {
    assert more[..|more| - 1] == steps;
  }

  /** A sink with nothing deferred accepts a record; the next checkpoint is begun. */
  lemma Opens(s: State, node: Node, r: RecordID)
    requires s.committers == [node] && s.phase.Idle? && s.deferred == map[]
    ensures Next(Next(s, Accept(node, [r])), Begin) ==
            s.(id := s.id + 1, phase := Preparing([node], []), deferred := Single(node, r),
               accepted := Hold(s.accepted, node, [r]))
  {
    assert Hold(s.deferred, node, [r]) == Single(node, r) by {
      assert Get(s.deferred, node) + [r] == [r];
    }
  }

  lemma Stores(s: State, c: Committable)
    requires s.phase == Preparing([], [c]) && s.id !in s.pending
    ensures var t := s.(pending := s.pending[s.id := [c]]);
            && Next(s, StageAll) == t.(phase := Staged)
            && Next(t.(phase := Staged), Persist(true)) ==
               t.(durable := t.pending, durableId := t.id,
                  phase := Publishing(Offer(t.pending, t.id), Nodes(Offer(t.pending, t.id))))
  {
    assert [] + [c] == [c];
  }

  /** One more committable is offered. */
  predicate OffersMore(t: State, u: State, node: Node, r: RecordID, h: Artifact) {
    && u.committers == t.committers && u.id == t.id + 1 && u.deferred == map[] && u.settled == t.settled
    && u.pending == t.pending[u.id := [Committable(h, u.id, node)]] && u.durable == u.pending
    && u.awaiting == t.awaiting[u.id := Single(node, r)]
    && u.phase == Publishing(Offer(u.pending, u.id), Nodes(Offer(u.pending, u.id)))
  }

  predicate Ready(t: State, node: Node) {
    && t.committers == [node] && t.phase.Idle? && t.deferred == map[]
    && t.id + 1 !in t.pending && t.id + 1 !in t.awaiting
  }

  /** A cycle of one sink as far as its offer: what it held is behind one more committable. */
  lemma Offers(s: State, steps: seq<Step>, node: Node, r: RecordID, h: Artifact, more: seq<Step>)
    requires AllEnabled(s, steps) && more == steps + Cycle(node, r, h) && Ready(Run(s, steps), node)
    ensures AllEnabled(s, more) && OffersMore(Run(s, steps), Run(s, more), node, r, h)
  {
    var c := Cycle(node, r, h);
    var s1 := steps + [c[0]];
    var s2 := s1 + [c[1]];
    var s3 := s2 + [c[2]];
    var s4 := s3 + [c[3]];
    assert more == s4 + [c[4]];
    Extend(s, steps, c[0], s1);
    Extend(s, s1, c[1], s2);
    Opens(Run(s, steps), node, r);
    Mint(Run(s, s2), node, r, h);
    Extend(s, s2, c[2], s3);
    Stores(Run(s, s3), Committable(h, Run(s, s3).id, node));
    Extend(s, s3, c[3], s4);
    Extend(s, s4, c[4], more);
  }

  lemma Mint(s: State, node: Node, r: RecordID, h: Artifact)
    requires s.phase == Preparing([node], []) && s.deferred == Single(node, r) && s.id !in s.awaiting
    ensures Next(s, Prepare(Answered([h]))) ==
            s.(phase := Preparing([], [Committable(h, s.id, node)]), deferred := map[],
               awaiting := s.awaiting[s.id := Single(node, r)])
  {
    assert Stamp([h], s.id, node) == [Committable(h, s.id, node)];
    assert Remaining(s.deferred, node) == map[] && Get(s.deferred, node) == [r];
    assert [node][1..] == [] && [] + Stamp([h], s.id, node) == Stamp([h], s.id, node);
    var none: Held := map[];
    assert Get(none, node) + [r] == [r] && none[node := [r]] == Single(node, r);
  }

  // The offer and the release when one or two checkpoints are all there is.

  lemma {:induction false} OfferNone(p: Pending, upto: CheckpointID)
    requires forall i :: i in p ==> i > upto
    ensures Offer(p, upto) == []
  {
    if upto == 0 {
    } else {
      OfferNone(p, upto - 1);
    }
  }

  lemma {:induction false} OfferOne(p: Pending, j: CheckpointID, upto: CheckpointID)
    requires j in p && j <= upto && forall i :: i in p && i <= upto ==> i == j
    ensures Offer(p, upto) == p[j]
    decreases upto
  {
    if upto == j {
      if upto > 0 {
        OfferNone(p, upto - 1);
      }
    } else {
      OfferOne(p, j, upto - 1);
    }
  }

  lemma OfferTwo(p: Pending, j: CheckpointID, k: CheckpointID)
    requires p.Keys == {j, k} && j < k
    ensures Offer(p, k) == p[j] + p[k]
  {
    OfferOne(p, j, k - 1);
  }

  lemma {:induction false} ReleasedNone(aw: Awaiting, upto: CheckpointID, node: Node)
    requires forall i :: i in aw ==> i > upto
    ensures Released(aw, upto, node) == []
  {
    if upto == 0 {
    } else {
      ReleasedNone(aw, upto - 1, node);
    }
  }

  lemma {:induction false} ReleasedOne(aw: Awaiting, j: CheckpointID, upto: CheckpointID, node: Node)
    requires j in aw && j <= upto && forall i :: i in aw && i <= upto ==> i == j
    ensures Released(aw, upto, node) == At(aw, j, node)
    decreases upto
  {
    if upto == j {
      if upto > 0 {
        ReleasedNone(aw, upto - 1, node);
      }
    } else {
      ReleasedOne(aw, j, upto - 1, node);
    }
  }

  lemma AnswersTo(outs: seq<CommitOutcome>)
    requires |outs| == 1
    ensures Answers(outs) == map[outs[0].handle := outs[0].disposition]
  {
    assert outs[..0] == [];
  }

  lemma OneOf(cs: seq<Committable>, node: Node, a: map<Artifact, CommitAnswer>)
    requires |cs| == 1 && cs[0].node == node
    ensures Of(cs, node) == cs && Without(cs, node) == [] && Nodes(cs) == {node}
    ensures Confirmed(cs, a) == if cs[0].handle in a && Succeeds(a[cs[0].handle]) then cs else []
  {
    assert cs[..0] == [] && cs[0] in cs;
  }

  lemma TwoOf(cs: seq<Committable>, node: Node, a: map<Artifact, CommitAnswer>)
    requires |cs| == 2 && cs[0].node == cs[1].node == node
    ensures Of(cs, node) == cs
    ensures cs[1].handle in a && !Succeeds(a[cs[1].handle]) ==> Confirmed(cs, a) == Confirmed(cs[..1], a)
  {
    OneOf(cs[..1], node, a);
  }

  /** One committable is offered. */
  predicate OnePending(s: State, node: Node, h: Artifact) {
    && s.phase == Publishing(Offer(s.pending, s.id), Nodes(Offer(s.pending, s.id)))
    && s.pending.Keys == {s.id} && s.pending[s.id] == [Committable(h, s.id, node)]
  }

  function NotYet(h: Artifact): seq<CommitOutcome> { [CommitOutcome(h, RetryLater)] }

  lemma GoesOn(cs: seq<Committable>, a: map<Artifact, CommitAnswer>)
    requires forall c :: c in cs && c.handle in a ==> !Refuses(a[c.handle]) && a[c.handle] != Aborted
    ensures !Stops(cs, a)
  {}

  lemma RetryConfirms(cs: seq<Committable>, node: Node, outs: seq<CommitOutcome>)
    requires |cs| == |outs| == 1 && cs[0].node == node && outs[0] == CommitOutcome(cs[0].handle, RetryLater)
    ensures Of(cs, node) == cs && Nodes(cs) == {node}
    ensures Confirmed(cs, Answers(outs)) == [] && !Stops(cs, Answers(outs))
  {
    AnswersTo(outs);
    OneOf(cs, node, Answers(outs));
    GoesOn(cs, Answers(outs));
  }

  lemma NothingConfirmed(s: State, node: Node, h: Artifact)
    requires OnePending(s, node, h)
    ensures s.phase.nodes == {node} && !Stops(Of(s.phase.offer, node), Answers(NotYet(h)))
    ensures Confirmed(Of(s.phase.offer, node), Answers(NotYet(h))) == []
  {
    OfferOne(s.pending, s.id, s.id);
    RetryConfirms(s.pending[s.id], node, NotYet(h));
  }

  /** A committable told to wait stays. */
  lemma Waits(s: State, node: Node, h: Artifact)
    requires OnePending(s, node, h)
    ensures Enabled(s, Publish(node, Outcomes(NotYet(h))))
    ensures Next(s, Publish(node, Outcomes(NotYet(h)))) == s.(phase := Publishing(s.phase.offer, {}))
  {
    NothingConfirmed(s, node, h);
    assert s.phase.nodes - {node} == {};
  }

  /** Two checkpoints of one sink are pending, each with one record behind it. */
  predicate TwoPending(s: State, node: Node, j: CheckpointID, a: RecordID, b: RecordID, h: Artifact, g: Artifact) {
    && j < s.id && s.phase == Publishing(Offer(s.pending, s.id), Nodes(Offer(s.pending, s.id)))
    && s.pending.Keys == {j, s.id} && s.awaiting.Keys == {j, s.id} && s.settled == map[]
    && s.pending[j] == [Committable(h, j, node)] && s.pending[s.id] == [Committable(g, s.id, node)]
    && s.awaiting[j] == Single(node, a) && s.awaiting[s.id] == Single(node, b)
  }

  /** The first is published and the second told to wait. */
  function HalfDone(h: Artifact, g: Artifact): seq<CommitOutcome> {
    [CommitOutcome(h, Committed), CommitOutcome(g, RetryLater)]
  }

  lemma HalfAnswers(cs: seq<Committable>, node: Node, outs: seq<CommitOutcome>)
    requires |cs| == |outs| == 2 && cs[0].node == cs[1].node == node && cs[0].handle != cs[1].handle
    requires outs[0] == CommitOutcome(cs[0].handle, Committed) && outs[1] == CommitOutcome(cs[1].handle, RetryLater)
    ensures Of(cs, node) == cs && node in Nodes(cs)
    ensures Confirmed(cs, Answers(outs)) == cs[..1] && !Stops(cs, Answers(outs)) && !SaysPublished(outs, cs[1].handle)
  {
    AnswersTo(outs[..1]);
    TwoOf(cs, node, Answers(outs));
    OneOf(cs[..1], node, Answers(outs));
    assert cs[0] in cs;
    GoesOn(cs, Answers(outs));
    AnswersSpec(outs, cs[1].handle, Committed);
    AnswersSpec(outs, cs[1].handle, AlreadyCommitted);
  }

  lemma HalfConfirmed(s: State, node: Node, j: CheckpointID, a: RecordID, b: RecordID, h: Artifact, g: Artifact)
    requires TwoPending(s, node, j, a, b, h, g) && h != g
    ensures Enabled(s, Publish(node, Outcomes(HalfDone(h, g))))
    ensures Confirms(s, node, Outcomes(HalfDone(h, g))) == s.pending[j]
    ensures !Stops(Of(s.phase.offer, node), Answers(HalfDone(h, g)))
    ensures !SaysPublished(HalfDone(h, g), g)
  {
    OfferTwo(s.pending, j, s.id);
    HalfAnswers(s.pending[j] + s.pending[s.id], node, HalfDone(h, g));
  }

  lemma ReleasesTwo(s: State, node: Node, j: CheckpointID, a: RecordID, b: RecordID, h: Artifact, g: Artifact)
    requires TwoPending(s, node, j, a, b, h, g)
    ensures High(s.id, s.pending[j]) == s.id && Released(s.awaiting, s.id, node) == [a, b]
    ensures Release(s.awaiting, s.id, node) == map[] && Confirm(s.pending, s.id, node) == map[]
  {
    assert s.pending[j][..0] == [];
    ReleasedOne(s.awaiting, j, s.id - 1, node);
    forall k | k in s.pending
      ensures Without(s.pending[k], node) == [] && s.awaiting[k] - {node} == map[]
    {
      OneOf(s.pending[k], node, map[]);
    }
  }

  lemma HalfEarly(s: State, node: Node, j: CheckpointID, a: RecordID, b: RecordID, h: Artifact, g: Artifact)
    requires TwoPending(s, node, j, a, b, h, g)
    ensures EarlyNow(s.awaiting, node, s.pending[j]) == {b}
  {
    var c := s.pending[j];
    assert c[0] in c && Vouched(c, j) && !Vouched(c, s.id);
    assert At(s.awaiting, s.id, node) == [b] && b in At(s.awaiting, s.id, node);
    forall k, r | k in s.awaiting && !Vouched(c, k) && r in At(s.awaiting, k, node)
      ensures r == b
    {
      assert k == s.id;
    }
    assert b in EarlyNow(s.awaiting, node, c);
  }

  /** The second record is settled, though its committable was not confirmed, and nothing is left to confirm. */
  lemma HalfSettlesAll(s: State, node: Node, j: CheckpointID, a: RecordID, b: RecordID, h: Artifact, g: Artifact)
    requires TwoPending(s, node, j, a, b, h, g) && h != g
    ensures Enabled(s, Publish(node, Outcomes(HalfDone(h, g))))
    ensures var t := Next(s, Publish(node, Outcomes(HalfDone(h, g))));
            Get(t.settled, node) == [a, b] && t.pending == map[] && t.durable == s.durable && t.id == s.id
  {
    var published := Outcomes(HalfDone(h, g));
    HalfConfirmed(s, node, j, a, b, h, g);
    var s1 := s.(phase := s.phase.(nodes := s.phase.nodes - {node}));
    assert Next(s, Publish(node, published)) == Conclude(s1, node, s.pending[j]);
    ReleasesTwo(s, node, j, a, b, h, g);
    assert Hold(s.settled, node, [a, b]) == map[node := [a, b]] by {
      assert Get(s.settled, node) + [a, b] == [a, b];
    }
  }

  /** The first cycle: one committable, told to wait, and the cycle ends. */
  function FirstCycle(node: Node, a: RecordID, h: Artifact): seq<Step> {
    Cycle(node, a, h) + [Publish(node, Outcomes(NotYet(h)))] + [Finish]
  }

  /** One committable is left over from the last cycle. */
  predicate OneLeft(t: State, node: Node, a: RecordID, h: Artifact) {
    && Ready(t, node) && t.settled == map[] && t.pending.Keys == t.awaiting.Keys == {t.id}
    && t.pending[t.id] == [Committable(h, t.id, node)] && t.awaiting[t.id] == Single(node, a)
  }

  lemma LeavesOne(s: State, t: State, node: Node, a: RecordID, h: Artifact)
    requires s.pending == map[] && s.awaiting == map[] && s.settled == map[] && s.committers == [node]
    requires OffersMore(s, t, node, a, h)
    ensures Enabled(t, Publish(node, Outcomes(NotYet(h))))
    ensures var u := Next(t, Publish(node, Outcomes(NotYet(h))));
            Enabled(u, Finish) && OneLeft(Next(u, Finish), node, a, h)
  {
    Waits(t, node, h);
  }

  lemma FirstWaits(s: State, node: Node, a: RecordID, h: Artifact, first: seq<Step>)
    requires s.pending == map[] && s.awaiting == map[] && s.settled == map[] && Ready(s, node)
    requires first == FirstCycle(node, a, h)
    ensures AllEnabled(s, first) && OneLeft(Run(s, first), node, a, h)
  {
    var none: seq<Step> := [];
    var cycle := Cycle(node, a, h);
    assert cycle == none + cycle;
    Offers(s, none, node, a, h, cycle);
    LeavesOne(s, Run(s, cycle), node, a, h);
    Extend(s, cycle, Publish(node, Outcomes(NotYet(h))), cycle + [Publish(node, Outcomes(NotYet(h)))]);
    Extend(s, cycle + [Publish(node, Outcomes(NotYet(h)))], Finish, first);
  }

  /**
   Through the protocol's own steps, with one committing sink: the first committable is told to wait,
   then confirmed together with a second one that is told to wait. The second record is settled and
   its committable forgotten, though its checkpoint carries it and nobody published it.
   */
  lemma SettledUnpublished(s0: State, node: Node, a: RecordID, b: RecordID, h: Artifact, g: Artifact,
                           steps: seq<Step>, more: seq<Step>)
    requires s0 == Start([node]) && h != g && steps == FirstCycle(node, a, h) + Cycle(node, b, g)
    requires more == steps + [Publish(node, Outcomes(HalfDone(h, g)))]
    ensures AllEnabled(s0, steps) && AllEnabled(s0, more)
    ensures var s, t := Run(s0, steps), Run(s0, more);
            && Get(t.settled, node) == [a, b] && t.pending == map[]
            && Committable(g, t.id, node) in Minted(t.durable, t.id)
            && !SaysPublished(HalfDone(h, g), g)
            && s.phase.Publishing? && EarlyNow(s.awaiting, node, Confirms(s, node, Outcomes(HalfDone(h, g)))) == {b}
  {
    var first := FirstCycle(node, a, h);
    FirstWaits(s0, node, a, h, first);
    Offers(s0, first, node, b, g, steps);
    SecondSettles(Run(s0, first), Run(s0, steps), node, a, b, h, g);
    Extend(s0, steps, Publish(node, Outcomes(HalfDone(h, g))), more);
  }

  lemma SecondSettles(t: State, s: State, node: Node, a: RecordID, b: RecordID, h: Artifact, g: Artifact)
    requires OneLeft(t, node, a, h) && OffersMore(t, s, node, b, g) && h != g
    ensures Enabled(s, Publish(node, Outcomes(HalfDone(h, g))))
    ensures var u := Next(s, Publish(node, Outcomes(HalfDone(h, g))));
            && Get(u.settled, node) == [a, b] && u.pending == map[]
            && Committable(g, u.id, node) in Minted(u.durable, u.id)
            && !SaysPublished(HalfDone(h, g), g)
    ensures EarlyNow(s.awaiting, node, Confirms(s, node, Outcomes(HalfDone(h, g)))) == {b}
  {
    HalfSettlesAll(s, node, t.id, a, b, h, g);
    HalfConfirmed(s, node, t.id, a, b, h, g);
    HalfEarly(s, node, t.id, a, b, h, g);
  }
}
