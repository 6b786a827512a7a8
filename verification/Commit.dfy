/** The tables of the commit protocol as the engine holds them, and the loops over them. */
module Commits {
  import opened Records
  import opened CommitSpec
  import opened Counting
  import I = CommitInv

  /** Records a sink accepted and has not made durable, by node. */
  class Deferred {
    var pending: Held

    constructor ()
      ensures pending == map[]
    {
      pending := map[];
    }

    method Hold(node: Node, recs: seq<RecordID>)
      modifies this
      ensures pending == CommitSpec.Hold(old(pending), node, recs)
    {
      if recs == [] {
        return;
      }
      pending := pending[node := Get(pending, node) + recs];
    }

    method Take(node: Node) returns (out: seq<RecordID>)
      modifies this
      ensures out == Get(old(pending), node) && pending == Remaining(old(pending), node)
    {
      out := Get(pending, node);
      pending := pending - {node};
    }

    method ReturnUnflushed(node: Node, recs: seq<RecordID>)
      modifies this
      ensures pending == Return(old(pending), node, recs)
    {
      if recs == [] {
        return;
      }
      pending := pending[node := recs + Get(pending, node)];
    }

    /**
     What the flush neither failed nor deferred is durable and handed out for settlement, in order; the rest,
     or everything when the flush itself failed, goes back to the front, in order.
     */
    method FlushOne(node: Node, held: seq<RecordID>, flush: Flushed)
      returns (durable: seq<RecordID>, ghost back: seq<RecordID>)
      modifies this
      ensures flush.FlushFailed? ==> durable == [] && back == held
      ensures flush.Reported? ==>
                && (forall r :: r in durable <==> r in held && r !in flush.failed && r !in flush.deferred)
                && (forall r :: r in back <==> r in held && (r in flush.failed || r in flush.deferred))
                && InOrder(durable, held) && InOrder(back, held)
                && durable == Durable(held, flush.NotDurable(), true)
                && back == Durable(held, flush.NotDurable(), false)
      ensures Get(pending, node) == back + Get(old(pending), node)
      ensures forall n :: n != node ==> Get(pending, n) == Get(old(pending), n)
      ensures pending == Return(old(pending), node, back)
      ensures forall r ::
                Count(Get(pending, node), r) + Count(durable, r) == Count(Get(old(pending), node), r) + Count(held, r)
    {
      var rest := held;
      durable := [];
      if flush.Reported? {
        durable, rest := Split(held, flush);
      }
      back := rest;
      forall r
        ensures Count(back, r) + Count(durable, r) == Count(held, r)
        ensures Count(Get(Return(pending, node, back), node), r) == Count(Get(pending, node), r) + Count(back, r)
      {
        if flush.Reported? {
          I.CountSplit(held, flush.NotDurable(), r);
        }
        I.ReturnCount(pending, node, back, node, r);
      }
      ReturnUnflushed(node, rest);
    }

    /** The records the answer does not mention, and those it does. */
    method Split(held: seq<RecordID>, flush: Flushed) returns (durable: seq<RecordID>, back: seq<RecordID>)
      requires flush.Reported?
      ensures durable == Durable(held, flush.NotDurable(), true) && back == Durable(held, flush.NotDurable(), false)
      ensures forall r :: r in durable <==> r in held && r !in flush.failed && r !in flush.deferred
      ensures forall r :: r in back <==> r in held && (r in flush.failed || r in flush.deferred)
      ensures InOrder(durable, held) && InOrder(back, held)
    {
      durable, back := [], [];
      var notDurable := (set r | r in flush.failed) + (set r | r in flush.deferred);
      InOrderAll(durable);
      for i := 0 to |held|
        invariant durable == Durable(held[..i], flush.NotDurable(), true)
        invariant back == Durable(held[..i], flush.NotDurable(), false)
        invariant forall r :: r in durable <==> r in held[..i] && r !in flush.failed && r !in flush.deferred
        invariant forall r :: r in back <==> r in held[..i] && (r in flush.failed || r in flush.deferred)
        invariant InOrder(durable, held[..i]) && InOrder(back, held[..i])
      {
        ghost var done := held[..i];
        assert held[..i + 1] == done + [held[i]] && held[..i + 1][..i] == done;
        InOrderSkip(durable, done, held[i]);
        InOrderSkip(back, done, held[i]);
        if held[i] in notDurable {
          InOrderTake(back, done, held[i]);
          back := back + [held[i]];
        } else {
          InOrderTake(durable, done, held[i]);
          durable := durable + [held[i]];
        }
      }
      assert held[..|held|] == held;
    }
  }

  // ---- loops over the awaiting and pending tables, part way ------------------------------------------

  ghost function ReleasedSoFar(was: Awaiting, todo: set<CheckpointID>, k: CheckpointID, node: Node): Awaiting {
    map j | j in was && (j in todo || j > k || was[j] - {node} != map[]) ::
      if j in todo || j > k then was[j] else was[j] - {node}
  }

  lemma ReleasedNext(was: Awaiting, todo: set<CheckpointID>, k: CheckpointID, node: Node, at: CheckpointID)
    requires at in todo && todo <= was.Keys
    ensures var aw := ReleasedSoFar(was, todo, k, node);
            && at in aw && aw[at] == was[at]
            && ReleasedSoFar(was, todo - {at}, k, node) ==
               if at > k then aw else if was[at] - {node} == map[] then aw - {at} else aw[at := was[at] - {node}]
  {}

  /** Taking one entry out takes its records out of what would be released. */
  lemma {:induction false} DropOne(aw: Awaiting, aw': Awaiting, at: CheckpointID, k: CheckpointID, node: Node,
                                   r: RecordID)
    requires At(aw', at, node) == [] && forall j: CheckpointID :: j != at ==> At(aw', j, node) == At(aw, j, node)
    ensures Count(Released(aw, k, node), r) ==
            Count(Released(aw', k, node), r) + if at <= k then Count(At(aw, at, node), r) else 0
  {
    if k == 0 {
    } else {
      DropOne(aw, aw', at, k - 1, node, r);
      CountAppend(Released(aw, k - 1, node), At(aw, k, node), r);
      CountAppend(Released(aw', k - 1, node), At(aw', k, node), r);
    }
  }

  /** The part of a release already done, record by record. */
  ghost predicate Accounted(out: seq<RecordID>, aw: Awaiting, was: Awaiting, k: CheckpointID, node: Node) {
    forall r :: Count(out, r) + Count(Released(aw, k, node), r) == Count(Released(was, k, node), r)
  }

  lemma AccountedNext(out: seq<RecordID>, aw: Awaiting, aw': Awaiting, was: Awaiting, at: CheckpointID,
                      k: CheckpointID, node: Node)
    requires Accounted(out, aw, was, k, node) && at <= k && at in aw
    requires aw' == if aw[at] - {node} == map[] then aw - {at} else aw[at := aw[at] - {node}]
    ensures Accounted(out + Get(aw[at], node), aw', was, k, node)
  {
    assert forall j: CheckpointID :: j != at ==> At(aw', j, node) == At(aw, j, node);
    forall r
      ensures Count(out + Get(aw[at], node), r) + Count(Released(aw', k, node), r) == Count(Released(was, k, node), r)
    {
      DropOne(aw, aw', at, k, node, r);
      CountAppend(out, Get(aw[at], node), r);
    }
  }

  ghost function ConfirmedSoFar(was: Pending, todo: set<CheckpointID>, k: CheckpointID, node: Node): Pending {
    map j | j in was && (j in todo || j > k || Without(was[j], node) != []) ::
      if j in todo || j > k then was[j] else Without(was[j], node)
  }

  lemma ConfirmedNext(was: Pending, todo: set<CheckpointID>, k: CheckpointID, node: Node, at: CheckpointID)
    requires at in todo && todo <= was.Keys
    ensures var p := ConfirmedSoFar(was, todo, k, node);
            && at in p && p[at] == was[at]
            && ConfirmedSoFar(was, todo - {at}, k, node) ==
               if at > k then p else if Without(was[at], node) == [] then p - {at} else p[at := Without(was[at], node)]
  {}

  /** The records of a release, and what it leaves. */
  lemma ReleaseMeans(out: seq<RecordID>, was: Awaiting, k: CheckpointID, node: Node)
    requires forall r :: Count(out, r) == Count(Released(was, k, node), r)
    ensures forall r :: r in out <==> exists j: nat :: j <= k && r in At(was, j, node)
    ensures forall j: nat, n: nat ::
              At(Release(was, k, node), j, n) == if j <= k && n == node then [] else At(was, j, n)
  {
    forall r
      ensures r in out <==> exists j: nat :: j <= k && r in At(was, j, node)
    {
      CountIn(out, r);
      CountIn(Released(was, k, node), r);
      I.ReleasedSpec(was, k, node, r);
    }
    forall j: nat, n: nat
      ensures At(Release(was, k, node), j, n) == if j <= k && n == node then [] else At(was, j, n)
    {
      I.AtRelease(was, k, node, j, n);
    }
  }

  lemma ConfirmMeans(was: Pending, k: CheckpointID, node: Node)
    ensures forall j: nat :: forall c ::
              c in Minted(Confirm(was, k, node), j) <==> c in Minted(was, j) && (j > k || c.node != node)
  {
    forall j: nat
      ensures forall c :: c in Minted(Confirm(was, k, node), j) <==> c in Minted(was, j) && (j > k || c.node != node)
    {
      forall c
        ensures c in Minted(Confirm(was, k, node), j) <==> c in Minted(was, j) && (j > k || c.node != node)
      {
        I.ConfirmDrops(was, k, node, j, c);
      }
    }
  }

  /** Records a committable is responsible for, by checkpoint and node. */
  class AwaitingCommit {
    var held: Awaiting

    constructor ()
      ensures held == map[]
    {
      held := map[];
    }

    method Hold(k: CheckpointID, node: Node, recs: seq<RecordID>)
      modifies this
      ensures held == Await(old(held), k, node, recs)
    {
      if recs == [] {
        return;
      }
      var inner := map[];
      if k in held {
        inner := held[k];
      }
      held := held[k := inner[node := Get(inner, node) + recs]];
    }

    /** In whatever order the table is visited, exactly the records at k or below come out. */
    method Release(k: CheckpointID, node: Node) returns (out: seq<RecordID>)
      modifies this
      ensures forall r :: r in out <==> exists j: nat :: j <= k && r in At(old(held), j, node)
      ensures forall j: nat, n: nat :: At(held, j, n) == if j <= k && n == node then [] else At(old(held), j, n)
      ensures held == CommitSpec.Release(old(held), k, node)
      ensures forall r :: Count(out, r) == Count(Released(old(held), k, node), r)
    {
      ghost var was := held;
      out := [];
      var todo := held.Keys;
      while todo != {}
        invariant todo <= was.Keys && held == ReleasedSoFar(was, todo, k, node) && Accounted(out, held, was, k, node)
      {
        var at :| at in todo;
        ReleasedNext(was, todo, k, node, at);
        todo := todo - {at};
        if at <= k {
          out := ReleaseAt(at, k, node, out, was);
        }
      }
      I.ReleaseNone(was, k, node, k, node);
      assert held == CommitSpec.Release(was, k, node);
      ReleaseMeans(out, was, k, node);
    }

    method ReleaseAt(at: CheckpointID, k: CheckpointID, node: Node, out: seq<RecordID>,
                     ghost was: Awaiting) returns (more: seq<RecordID>)
      requires at in held && at <= k && Accounted(out, held, was, k, node)
      modifies this
      ensures var rest := old(held)[at] - {node};
              held == if rest == map[] then old(held) - {at} else old(held)[at := rest]
      ensures Accounted(more, held, was, k, node)
    {
      more := out + Get(held[at], node);
      var rest := held[at] - {node};
      AccountedNext(out, held, if rest == map[] then held - {at} else held[at := rest], was, at, k, node);
      if rest == map[] {
        held := held - {at};
      } else {
        held := held[at := rest];
      }
    }
  }

  /** Owns the checkpoint id and the committables not yet confirmed. */
  class Checkpointer {
    var id: CheckpointID
    var pending: Pending

    constructor ()
      ensures id == 0 && pending == map[]
    {
      id, pending := 0, map[];
    }

    method Next() returns (k: CheckpointID)
      modifies this
      ensures k == id == old(id) + 1 && pending == old(pending)
    {
      id := id + 1;
      k := id;
    }

    method Stage(k: CheckpointID, cs: seq<Committable>)
      modifies this
      ensures pending == CommitSpec.Stage(old(pending), k, cs) && id == old(id)
    {
      if cs == [] {
        return;
      }
      pending := pending[k := Minted(pending, k) + cs];
    }

    method Others(cs: seq<Committable>, node: Node) returns (kept: seq<Committable>)
      ensures kept == Without(cs, node)
    {
      kept := [];
      for i := 0 to |cs|
        invariant kept == Without(cs[..i], node)
      {
        assert cs[..i + 1][..i] == cs[..i];
        if cs[i].node != node {
          kept := kept + [cs[i]];
        }
      }
      assert cs[..|cs|] == cs;
    }

    method Confirm(k: CheckpointID, node: Node)
      modifies this
      ensures pending == CommitSpec.Confirm(old(pending), k, node) && id == old(id)
      ensures forall j: nat :: forall c ::
                c in Minted(pending, j) <==> c in Minted(old(pending), j) && (j > k || c.node != node)
    {
      ghost var was := pending;
      var todo := pending.Keys;
      while todo != {}
        invariant todo <= was.Keys && pending == ConfirmedSoFar(was, todo, k, node) && id == old(id)
      {
        var at :| at in todo;
        ConfirmedNext(was, todo, k, node, at);
        todo := todo - {at};
        if at <= k {
          var kept := Others(pending[at], node);
          if kept == [] {
            pending := pending - {at};
          } else {
            pending := pending[at := kept];
          }
        }
      }
      assert pending == CommitSpec.Confirm(was, k, node);
      ConfirmMeans(was, k, node);
    }

    /** The whole pending set, newest last, whatever bound its ids keep to. */
    method Offerable(ghost bound: CheckpointID) returns (out: seq<Committable>)
      requires forall k :: k in pending ==> k <= bound
      ensures forall c :: c in out <==> exists k :: k in pending && c in pending[k]
      ensures I.Filed(pending) ==> I.Ascending(out)
      ensures out == Offer(pending, bound)
    {
      out := [];
      var todo := pending.Keys;
      ghost var done: nat := 0;
      while todo != {}
        invariant todo <= pending.Keys && done <= bound + 1
        invariant forall k :: k in pending ==> (k in todo <==> done <= k)
        invariant out == if done == 0 then [] else Offer(pending, done - 1)
      {
        var at := Least(todo);
        OfferSkips(pending, done, at);
        out := out + pending[at];
        todo := todo - {at};
        done := at + 1;
      }
      OfferRest(pending, done, bound);
      OfferMeans(pending, bound);
    }
  }

  method Least(s: set<CheckpointID>) returns (m: CheckpointID)
    requires s != {}
    ensures m in s && forall x :: x in s ==> m <= x
  {
    var rest := s;
    m :| m in rest;
    rest := rest - {m};
    while rest != {}
      invariant rest <= s && m in s && forall x :: x in s && x !in rest ==> m <= x
    {
      var x :| x in rest;
      rest := rest - {x};
      if x < m {
        m := x;
      }
    }
  }

  lemma {:induction false} OfferSkips(p: Pending, done: nat, at: CheckpointID)
    requires done <= at && at in p && forall k :: k in p && done <= k ==> at <= k
    ensures Offer(p, at) == (if done == 0 then [] else Offer(p, done - 1)) + p[at]
  {
    OfferGap(p, done, at);
  }

  lemma {:induction false} OfferGap(p: Pending, done: nat, at: nat)
    requires done <= at && forall k :: k in p && done <= k ==> at <= k
    ensures (if at == 0 then [] else Offer(p, at - 1)) == if done == 0 then [] else Offer(p, done - 1)
    decreases at
  {
    if done >= at {
    } else {
      OfferGap(p, done, at - 1);
    }
  }

  lemma OfferMeans(p: Pending, bound: CheckpointID)
    requires forall k :: k in p ==> k <= bound
    ensures forall c :: c in Offer(p, bound) <==> exists k :: k in p && c in p[k]
    ensures I.Filed(p) ==> I.Ascending(Offer(p, bound))
  {
    I.OfferSpec(p, bound);
    if I.Filed(p) {
      I.OfferAscends(p, bound);
    }
    forall c
      ensures c in Offer(p, bound) <==> exists k :: k in p && c in p[k]
    {
      if k :| k in p && c in p[k] {
        assert k <= bound && c in Minted(p, k);
      }
      if c in Offer(p, bound) {
        var k: nat :| k <= bound && c in Minted(p, k);
        assert k in p && c in p[k];
      }
    }
  }

  lemma OfferRest(p: Pending, done: nat, bound: CheckpointID)
    requires done <= bound + 1 && forall k :: k in p ==> k < done
    ensures Offer(p, bound) == if done == 0 then [] else Offer(p, done - 1)
  {
    OfferGap(p, done, bound + 1);
  }

  // ---- a sink's answers --------------------------------------------------------------------------------

  method AnswersOf(outs: seq<CommitOutcome>) returns (a: map<Artifact, CommitAnswer>)
    ensures a == Answers(outs)
  {
    a := map[];
    for i := 0 to |outs|
      invariant a == Answers(outs[..i])
    {
      assert outs[..i + 1][..i] == outs[..i];
      a := a[outs[i].handle := outs[i].disposition];
    }
    assert outs[..|outs|] == outs;
  }

  /** The sink says the artifact is published, now or before. */
  predicate Published(a: map<Artifact, CommitAnswer>, c: Committable) {
    c.handle in a && (a[c.handle] == Committed || a[c.handle] == AlreadyCommitted)
  }

  /** The whole batch is classified before anything is acted on. */
  method Classify(sent: seq<Committable>, a: map<Artifact, CommitAnswer>)
    returns (ok: bool, confirmed: seq<Committable>)
    ensures ok <==>
            && (forall c :: c in sent && c.handle in a ==> a[c.handle] != DeadLetter && a[c.handle] != OutOfRange)
            && ((exists c :: c in sent && Published(a, c)) ||
                (forall c :: c in sent && c.handle in a ==> a[c.handle] != Aborted))
    ensures ok ==> (forall c :: c in confirmed <==> c in sent && Published(a, c)) && InOrder(confirmed, sent)
    ensures ok <==> !Stops(sent, a)
    ensures ok ==> confirmed == Confirmed(sent, a)
  {
    confirmed := [];
    InOrderAll(confirmed);
    var aborted := [];
    for i := 0 to |sent|
      invariant confirmed == Confirmed(sent[..i], a) && InOrder(confirmed, sent[..i])
      invariant forall c :: c in confirmed <==> c in sent[..i] && Published(a, c)
      invariant forall j :: 0 <= j < i && sent[j].handle in a ==> !Refuses(a[sent[j].handle])
      invariant aborted != [] <==> exists j :: 0 <= j < i && sent[j].handle in a && a[sent[j].handle] == Aborted
    {
      assert sent[..i + 1][..i] == sent[..i] && sent[..i + 1] == sent[..i] + [sent[i]];
      InOrderSkip(confirmed, sent[..i], sent[i]);
      InOrderTake(confirmed, sent[..i], sent[i]);
      if sent[i].handle in a {
        match a[sent[i].handle]
        case Committed => confirmed := confirmed + [sent[i]];
        case AlreadyCommitted => confirmed := confirmed + [sent[i]];
        case RetryLater =>
        case Aborted => aborted := aborted + [sent[i]];
        case _ =>
          assert sent[i] in sent;
          return false, confirmed;
      }
    }
    assert sent[..|sent|] == sent;
    assert confirmed != [] ==> confirmed[0] in confirmed;
    ok := confirmed != [] || aborted == [];
  }

  method Highest(id: CheckpointID, confirmed: seq<Committable>) returns (high: CheckpointID)
    ensures high == High(id, confirmed)
  {
    high := id;
    for i := 0 to |confirmed|
      invariant high == High(id, confirmed[..i])
    {
      assert confirmed[..i + 1][..i] == confirmed[..i];
      if confirmed[i].checkpoint > high {
        high := confirmed[i].checkpoint;
      }
    }
    assert confirmed[..|confirmed|] == confirmed;
  }

  /** Turns one sink's answers into settlement: what to settle, once the tables have let it go. */
  method ApplyOutcomes(cp: Checkpointer, aw: AwaitingCommit, node: Node, id: CheckpointID,
                       sent: seq<Committable>, outs: seq<CommitOutcome>)
    returns (ok: bool, settle: seq<RecordID>)
    modifies cp, aw
    ensures ok <==>
            && (forall c :: c in sent ==> !I.SaysRefused(outs, c.handle))
            && ((exists c :: c in sent && I.SaysPublished(outs, c.handle)) ||
                (forall c :: c in sent ==> !I.Says(outs, c.handle, Aborted)))
    ensures settle != [] || aw.held != old(aw.held) || cp.pending != old(cp.pending) ==>
              ok && exists c :: c in sent && I.SaysPublished(outs, c.handle)
    ensures ok <==> !Stops(sent, Answers(outs))
    ensures var confirmed := Confirmed(sent, Answers(outs));
            if !ok || confirmed == [] then
              settle == [] && aw.held == old(aw.held) && cp.pending == old(cp.pending) && cp.id == old(cp.id)
            else
              var high := High(id, confirmed);
              && aw.held == Release(old(aw.held), high, node)
              && cp.pending == Confirm(old(cp.pending), high, node) && cp.id == old(cp.id)
              && forall r :: Count(settle, r) == Count(Released(old(aw.held), high, node), r)
  {
    settle := [];
    I.WordsDecide(sent, outs);
    var a := AnswersOf(outs);
    var confirmed;
    ok, confirmed := Classify(sent, a);
    if !ok || confirmed == [] {
      return;
    }
    assert confirmed[0] in confirmed;
    var high := Highest(id, confirmed);
    settle := aw.Release(high, node);
    cp.Confirm(high, node);
  }
}
