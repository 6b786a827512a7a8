/** The lane table as the engine holds it: maps updated in place around writes to a versioned store. */
module LaneCtls {
  import opened Records
  import opened LaneTableSpec
  import L = LedgerSpec
  import Ledgers
  import opened Counting

  /** The store's side of the contract: one atomic batch, refused whole on any version that differs. */
  class StateStore {
    var rows: Store

    method Set(batch: Table, presented: map<LaneID, nat>, up: bool) returns (ok: bool)
      requires presented.Keys == batch.Keys
      modifies this
      ensures ok <==> up && Matches(old(rows), batch, presented)
      ensures rows == if ok then Put(old(rows), batch) else old(rows)
    {
      ok := up && Matches(rows, batch, presented);
      if ok {
        rows := Put(rows, batch);
      }
    }
  }

  /** A lane as a source announces it; a budget of zero asks for the pipeline's. */
  datatype Named = Named(id: LaneID, spec: Spec, ordering: Ordering, budget: nat)

  /** Those among the first n that the table does not know; a name given twice counts once. */
  ghost function Unknown(specs: seq<Named>, n: nat, lanes: Table): map<LaneID, Spec>
    requires n <= |specs|
  {
    if n == 0 then map[]
    else if specs[n - 1].id in lanes then Unknown(specs, n - 1, lanes)
    else Unknown(specs, n - 1, lanes)[specs[n - 1].id := specs[n - 1].spec]
  }

  lemma {:induction false} UnknownSpec(specs: seq<Named>, n: nat, lanes: Table)
    requires n <= |specs|
    ensures Unknown(specs, n, lanes).Keys !! lanes.Keys
    ensures forall i :: 0 <= i < n && specs[i].id !in lanes ==> specs[i].id in Unknown(specs, n, lanes)
  {
    if n == 0 {
    } else {
      UnknownSpec(specs, n - 1, lanes);
    }
  }

  /** Their ids, in the order they were named. */
  ghost function NewIn(specs: seq<Named>, n: nat, lanes: Table): seq<LaneID>
    requires n <= |specs|
  {
    if n == 0 then [] else NewIn(specs, n - 1, lanes) + if specs[n - 1].id in lanes then [] else [specs[n - 1].id]
  }

  lemma {:induction false} NewSpec(specs: seq<Named>, n: nat, lanes: Table)
    requires n <= |specs|
    ensures forall id :: id in NewIn(specs, n, lanes) <==> id in Unknown(specs, n, lanes)
  {
    if n == 0 {
    } else {
      NewSpec(specs, n - 1, lanes);
    }
  }

  // ---- the batches a writer presents, and the view after them --------------------------------------

  ghost function Presented(versions: map<LaneID, nat>, staged: map<LaneID, int>): map<LaneID, nat>
    requires staged.Keys <= versions.Keys
  {
    map id | id in staged :: versions[id]
  }

  ghost function Zeros(added: map<LaneID, Spec>): map<LaneID, nat> { map id | id in added :: 0 }

  predicate Matches(store: Store, batch: Table, presented: map<LaneID, nat>)
    requires presented.Keys == batch.Keys
  {
    forall id :: id in batch ==> Version(store, id) == presented[id]
  }

  /** What a cursor flush and an announcement do to the store and the view, by whether they land. */
  lemma StageEffect(s: State, up: bool)
    requires s.writer.Staging? && s.writer.landing.Unsent? && s.writer.staged.Keys <= s.lanes.Keys == s.versions.Keys
    ensures var t, staged := DoApply(DoWrite(s, up)), s.writer.staged;
            if up && Matches(s.store, Rows(s), Presented(s.versions, staged)) then
              t.store == Put(s.store, Rows(s)) && t.lanes == MovedCursors(s.lanes, staged) &&
                  t.versions == Bumped(s.versions, staged)
            else t == s.(writer := Free)
  {
    assert Matches(s.store, Rows(s), Presented(s.versions, s.writer.staged)) <==> Accepts(s.store, Rows(s), s.versions);
  }

  /** The same by the answer of the flush, which is success when there was nothing to write. */
  lemma StageFollows(s: State, up: bool, ok: bool)
    requires s.writer.Staging? && s.writer.landing.Unsent? && s.writer.staged.Keys <= s.lanes.Keys == s.versions.Keys
    requires ok <==> Rows(s) == map[] || (up && Matches(s.store, Rows(s), Presented(s.versions, s.writer.staged)))
    ensures var t, staged := DoApply(DoWrite(s, up)), s.writer.staged;
            && t.store == (if ok then Put(s.store, Rows(s)) else s.store)
            && t.lanes == (if ok then MovedCursors(s.lanes, staged) else s.lanes)
            && t.versions == (if ok then Bumped(s.versions, staged) else s.versions)
  {
    StageEffect(s, up);
    if Rows(s) == map[] {
      NoRows(s.lanes, s.versions, s.store, s.writer.staged, s.writer.epoch);
    }
  }

  /** Every known lane is seen at its position and stored there under the epoch, with the rest of its row. */
  predicate AtPositions(was: Table, positions: map<LaneID, int>, epoch: nat, lanes: Table, rows: Store) {
    forall id :: id in positions && id in was ==>
      && id in lanes && lanes[id] == was[id].(cursor := positions[id])
      && id in rows && rows[id].rec == was[id].(cursor := positions[id], epoch := epoch)
  }

  /** Lanes without a position, and positions of no lane, leave everything alone. */
  ghost predicate OthersSame(was: Table, before: Store, positions: map<LaneID, int>, lanes: Table, rows: Store) {
    && lanes.Keys == was.Keys
    && (forall id :: id in was && id !in positions ==> lanes[id] == was[id])
    && (forall id :: !(id in positions && id in was) ==>
          (id in rows <==> id in before) && (id in rows ==> rows[id] == before[id]))
  }

  lemma FlushMoves(was: Table, before: Store, positions: map<LaneID, int>, epoch: nat)
    ensures var staged := Known(positions, was);
            var lanes, rows := MovedCursors(was, staged), Put(before, CursorRows(was, staged, epoch));
            AtPositions(was, positions, epoch, lanes, rows) && OthersSame(was, before, positions, lanes, rows)
  {}

  /** When a flush answers success, in terms of what its caller knows. */
  lemma FlushAnswers(was: Table, versions: map<LaneID, nat>, before: Store, positions: map<LaneID, int>, epoch: nat,
                     up: bool)
    requires was.Keys == versions.Keys
    ensures var staged := Known(positions, was);
            var rows := CursorRows(was, staged, epoch);
            && (rows == map[] <==> forall id :: id in positions ==> id !in was)
            && (Matches(before, rows, Presented(versions, staged)) <==>
                forall id :: id in positions && id in was ==> Version(before, id) == versions[id])
            && (rows == map[] ==> Matches(before, rows, Presented(versions, staged)))
  {
    var rows := CursorRows(was, Known(positions, was), epoch);
    assert forall id :: id in rows <==> id in positions && id in was;
    assert rows != map[] ==> exists id :: id in rows;
  }

  /** What a flush has done, by its answer. */
  lemma FlushMeans(s: State, positions: map<LaneID, int>, up: bool, ok: bool, lanes: Table, rows: Store)
    requires s.lanes.Keys == s.versions.Keys && s.writer.Staging? && s.writer.staged == Known(positions, s.lanes)
    requires ok <==> Rows(s) == map[] || (up && Matches(s.store, Rows(s), Presented(s.versions, s.writer.staged)))
    requires rows == (if ok then Put(s.store, Rows(s)) else s.store)
    requires lanes == (if ok then MovedCursors(s.lanes, s.writer.staged) else s.lanes)
    ensures ok <==>
            || (forall id :: id in positions ==> id !in s.lanes)
            || (up && forall id :: id in positions && id in s.lanes ==> Version(s.store, id) == s.versions[id])
    ensures ok ==> AtPositions(s.lanes, positions, s.writer.epoch, lanes, rows)
    ensures OthersSame(s.lanes, s.store, positions, lanes, rows)
  {
    FlushMoves(s.lanes, s.store, positions, s.writer.epoch);
    FlushAnswers(s.lanes, s.versions, s.store, positions, s.writer.epoch, up);
  }

  lemma NoRows(was: Table, versions: map<LaneID, nat>, before: Store, staged: map<LaneID, int>, epoch: nat)
    requires staged.Keys <= was.Keys && CursorRows(was, staged, epoch) == map[]
    ensures Put(before, map[]) == before && MovedCursors(was, staged) == was && Bumped(versions, staged) == versions
  {
    assert forall id :: id in staged ==> id in CursorRows(was, staged, epoch);
  }

  lemma AnnounceEffect(s: State, up: bool)
    requires s.writer.Announcing? && s.writer.landing.Unsent? && s.writer.added.Keys !! s.versions.Keys
    ensures var t, added := DoApply(DoWrite(s, up)), s.writer.added;
            if up && Matches(s.store, Rows(s), Zeros(added)) then
              t == s.(store := Put(s.store, Rows(s)), lanes := s.lanes + FreshRows(added),
                      versions := s.versions + FirstVersions(added), writer := Announced(added.Keys, s.writer.regs))
            else t == s.(writer := Free)
  {
    assert Matches(s.store, Rows(s), Zeros(s.writer.added)) <==> Accepts(s.store, Rows(s), s.versions);
  }

  // ---- an announcement from its first lock to its end ------------------------------------------------

  /** The lanes are registered one after another; the first refusal ends it, and only success closes the channel. */
  ghost function Registered(s: State): State
    requires s.writer.Announced?
    decreases |s.writer.regs|
  {
    if s.writer.regs == [] then Next(s, AnnounceNotify)
    else
      var t := Next(s, RegisterNext);
      if t.writer.Announced? then Registered(t) else t
  }

  ghost predicate Announces(s: State) { s.writer.Announced? || (s.writer.Announcing? && s.writer.landing.Unsent?) }

  /** The table once the rows were sent, or needed no sending. */
  ghost function Joined(s: State, up: bool): State
    requires Announces(s)
  {
    if s.writer.Announced? then s else DoApply(DoWrite(s, up))
  }

  ghost function AnnouncedAll(s: State, up: bool): State
    requires Announces(s)
  {
    if Joined(s, up).writer.Announced? then Registered(Joined(s, up)) else Joined(s, up)
  }

  lemma RegisterOne(s: State)
    requires s.writer.Announced? && s.writer.regs != []
    ensures var r := s.writer.regs[0];
            var (led, e) := L.RegisterLane(s.led, r.lane, r.ordering, r.budget, r.whenFull, r.dflt);
            if e.None? then
              Registered(s) == Registered(s.(led := led, writer := Announced(s.writer.joined, s.writer.regs[1..])))
            else Registered(s) == s.(writer := Free, unheard := s.unheard + s.writer.joined) && led == s.led
  {}

  lemma {:induction false} RegisteredTable(s: State)
    requires s.writer.Announced?
    ensures var t := Registered(s); t.store == s.store && t.lanes == s.lanes && t.versions == s.versions
    decreases |s.writer.regs|
  {
    if s.writer.regs == [] {
    } else {
      var t := Next(s, RegisterNext);
      if t.writer.Announced? {
        RegisteredTable(t);
      }
    }
  }

  /** A lane is registered with the ordering it has. */
  predicate Knows(led: L.State, id: LaneID, ordering: Ordering) {
    id in led.lanes && led.lanes[id].ordering == ordering
  }

  /** Whoever closes the channel has registered every lane with its ordering, and none has lost its own. */
  lemma {:induction false} RegisteredAll(s: State)
    requires s.writer.Announced? && Registered(s).changes == s.changes + 1
    ensures forall r :: r in s.writer.regs ==> Knows(Registered(s).led, r.lane, r.ordering)
    ensures forall id, ordering :: Knows(s.led, id, ordering) ==> Knows(Registered(s).led, id, ordering)
    decreases |s.writer.regs|
  {
    if s.writer.regs == [] {
    } else {
      var r, t := s.writer.regs[0], Next(s, RegisterNext);
      RegisteredAll(t);
      RegisterKnows(s.led, r);
      assert Knows(t.led, r.lane, r.ordering);
      assert s.writer.regs == [r] + t.writer.regs;
    }
  }

  lemma RegisterKnows(led: L.State, r: Reg)
    ensures var (t, e) := L.RegisterLane(led, r.lane, r.ordering, r.budget, r.whenFull, r.dflt);
            && (e.None? ==> Knows(t, r.lane, r.ordering))
            && forall id, ordering :: Knows(led, id, ordering) ==> Knows(t, id, ordering)
  {}

  /** The lane is new, stored and seen with nothing read, or is seen as before. */
  predicate JoinedAs(was: Table, lanes: Table, rows: Store, id: LaneID) {
    && id in lanes
    && (if id in was then lanes[id] == was[id]
        else
          && lanes[id].cursor == 0 && lanes[id].epoch == 0 && !lanes[id].finished && !lanes[id].stamped
          && id in rows && rows[id].rec == lanes[id])
  }

  /** What a successful announcement leaves in the table and the store. */
  lemma AnnouncedTable(s: State, added: map<LaneID, Spec>, regs: seq<Reg>, up: bool)
    requires s.writer == BeginAnnounce(added, regs) && added.Keys !! s.lanes.Keys
    requires Joined(s, up).writer.Announced?
    ensures var t := AnnouncedAll(s, up);
            forall id :: id in s.lanes || id in added ==> JoinedAs(s.lanes, t.lanes, t.store, id)
  {
    JoinedWell(s, added, regs, up);
    RegisteredTable(Joined(s, up));
  }

  lemma ClosedIsJoined(s: State, added: map<LaneID, Spec>, regs: seq<Reg>, up: bool)
    requires s.writer == BeginAnnounce(added, regs) && AnnouncedAll(s, up).changes == s.changes + 1
    ensures Joined(s, up).writer.Announced?
  {}

  /** And in the ledger. */
  lemma AnnouncedLedger(s: State, added: map<LaneID, Spec>, regs: seq<Reg>, up: bool)
    requires s.writer == BeginAnnounce(added, regs) && added.Keys !! s.lanes.Keys
    requires Joined(s, up).writer.Announced? && AnnouncedAll(s, up).changes == s.changes + 1
    ensures forall r :: r in regs ==> Knows(AnnouncedAll(s, up).led, r.lane, r.ordering)
  {
    JoinedWell(s, added, regs, up);
    RegisteredAll(Joined(s, up));
  }

  lemma JoinedWell(s: State, added: map<LaneID, Spec>, regs: seq<Reg>, up: bool)
    requires s.writer == BeginAnnounce(added, regs) && added.Keys !! s.lanes.Keys
    requires Joined(s, up).writer.Announced?
    ensures var t := Joined(s, up);
            && t.writer.regs == regs && t.changes == s.changes
            && (forall id :: id in s.lanes || id in added ==> JoinedAs(s.lanes, t.lanes, t.store, id))
  {}

  lemma AddedRow(was: Table, u: map<LaneID, Spec>, n: Named)
    ensures was + FreshRows(u[n.id := n.spec]) == (was + FreshRows(u))[n.id := Fresh(n.spec)]
  {}

  lemma AddedVersion(before: map<LaneID, nat>, u: map<LaneID, Spec>, n: Named)
    ensures before + FirstVersions(u[n.id := n.spec]) == (before + FirstVersions(u))[n.id := 1]
  {}

  lemma JoinNext(was: Table, before: map<LaneID, nat>, first: seq<LaneID>, specs: seq<Named>, i: nat)
    requires i < |specs|
    ensures var u, v, n := Unknown(specs, i, was), Unknown(specs, i + 1, was), specs[i];
            if n.id in was then v == u && NewIn(specs, i + 1, was) == NewIn(specs, i, was)
            else
              && was + FreshRows(v) == (was + FreshRows(u))[n.id := Fresh(n.spec)]
              && before + FirstVersions(v) == (before + FirstVersions(u))[n.id := 1]
              && first + NewIn(specs, i + 1, was) == first + NewIn(specs, i, was) + [n.id]
  {
    AddedRow(was, Unknown(specs, i, was), specs[i]);
    AddedVersion(before, Unknown(specs, i, was), specs[i]);
  }

  /** The lanes of the order that are offered. */
  ghost function OfferedIn(order: seq<LaneID>, lanes: Table, pending: set<LaneID>): seq<LaneID> {
    if order == [] then []
    else
      var init, id := OfferedIn(order[..|order| - 1], lanes, pending), order[|order| - 1];
      if Offered(lanes, pending, id) then init + [id] else init
  }

  lemma {:induction false} OfferedSpec(order: seq<LaneID>, lanes: Table, pending: set<LaneID>)
    ensures forall id :: id in OfferedIn(order, lanes, pending) <==> id in order && Offered(lanes, pending, id)
    ensures InOrder(OfferedIn(order, lanes, pending), order)
  {
    if order == [] {
      InOrderAll(order);
    } else {
      var init, id := order[..|order| - 1], order[|order| - 1];
      OfferedSpec(init, lanes, pending);
      assert order == init + [id];
      InOrderSkip(OfferedIn(init, lanes, pending), init, id);
      InOrderTake(OfferedIn(init, lanes, pending), init, id);
    }
  }

  /** Every lane of the group has finished durably. */
  predicate AllDone(lanes: Table, g: Group) {
    forall id :: id in lanes && lanes[id].spec.group == g ==> lanes[id].finished && lanes[id].stamped
  }

  /** A lane to read: unfinished, no finish pending, and every lane of the groups it starts after is done. */
  predicate MayRead(lanes: Table, pending: set<LaneID>, id: LaneID) {
    && id in lanes && !lanes[id].finished && id !in pending
    && forall i :: 0 <= i < |lanes[id].spec.startAfter| ==> AllDone(lanes, lanes[id].spec.startAfter[i])
  }

  lemma OfferedMeans(lanes: Table, pending: set<LaneID>, id: LaneID)
    ensures Offered(lanes, pending, id) <==> MayRead(lanes, pending, id)
  {
    if id in lanes {
      assert forall i :: 0 <= i < |lanes[id].spec.startAfter| ==>
          (Waiting(lanes, lanes[id].spec.startAfter[i]) <==> !AllDone(lanes, lanes[id].spec.startAfter[i]));
    }
  }

  ghost function Blocking(groups: seq<Group>, lanes: Table): seq<Group> {
    if groups == [] then []
    else
      var init, g := Blocking(groups[..|groups| - 1], lanes), groups[|groups| - 1];
      if Waiting(lanes, g) then init + [g] else init
  }

  lemma {:induction false} BlockingSpec(groups: seq<Group>, lanes: Table)
    ensures Blocking(groups, lanes) != [] <==> exists i :: 0 <= i < |groups| && Waiting(lanes, groups[i])
    ensures forall g :: g in Blocking(groups, lanes) <==> g in groups && !AllDone(lanes, g)
    ensures InOrder(Blocking(groups, lanes), groups)
  {
    if groups == [] {
      InOrderAll(groups);
    } else {
      var init, g := groups[..|groups| - 1], groups[|groups| - 1];
      BlockingSpec(init, lanes);
      assert groups == init + [g];
      assert Waiting(lanes, g) <==> !AllDone(lanes, g);
      InOrderSkip(Blocking(init, lanes), init, g);
      InOrderTake(Blocking(init, lanes), init, g);
    }
  }

  class LaneCtl {
    const store: StateStore
    const ledger: Ledgers.Ledger
    /** What a lane gets that asks for no budget, and what the ledger is configured with. */
    const budget: nat
    const whenFull: WhenFull
    const dflt: nat
    var lanes: Table
    var order: seq<LaneID>
    var versions: map<LaneID, nat>
    var finishPending: set<LaneID>
    var changes: nat

    constructor (s: StateStore, l: Ledgers.Ledger, budget: nat, whenFull: WhenFull, dflt: nat)
      ensures store == s && lanes == map[] && order == [] && versions == map[] && finishPending == {} && changes == 0
      ensures ledger == l && this.budget == budget && this.whenFull == whenFull && this.dflt == dflt
    {
      store, lanes, order, versions, finishPending, changes := s, map[], [], map[], {}, 0;
      ledger, this.budget, this.whenFull, this.dflt := l, budget, whenFull, dflt;
    }

    function RegOf(n: Named): Reg {
      Reg(n.id, n.ordering, if n.budget == 0 then budget else n.budget, whenFull, dflt)
    }

    ghost function RegsOf(specs: seq<Named>): seq<Reg> {
      seq(|specs|, i requires 0 <= i < |specs| => RegOf(specs[i]))
    }

    /** The table with a given holder of the write lock. */
    ghost function Seen(w: Writer): State
      reads this, store, ledger
    {
      State(store.rows, lanes, versions, finishPending, changes, w, {}, {}, [], {}, ledger.State(), Outside({}), {})
    }

    /** The store and the view are those of t. */
    ghost predicate Follows(t: State)
      reads this, store
    {
      store.rows == t.store && lanes == t.lanes && versions == t.versions
    }

    // ---- reading -----------------------------------------------------------------------------------

    method GroupWaiting(g: Group) returns (waiting: bool)
      ensures waiting <==> Waiting(lanes, g)
    {
      var todo := lanes.Keys;
      while todo != {}
        invariant todo <= lanes.Keys
        invariant forall id :: id in lanes && id !in todo && lanes[id].spec.group == g ==> Done(lanes[id])
      {
        var id :| id in todo;
        todo := todo - {id};
        var other := lanes[id];
        if other.spec.group == g && (!other.finished || !other.stamped) {
          return true;
        }
      }
      return false;
    }

    /** The groups a lane still waits for, in the order it names them. */
    method GatedOn(rec: LaneRec) returns (waiting: seq<Group>)
      ensures forall g :: g in waiting <==> g in rec.spec.startAfter && !AllDone(lanes, g)
      ensures InOrder(waiting, rec.spec.startAfter)
      ensures waiting == Blocking(rec.spec.startAfter, lanes)
      ensures waiting != [] <==> Gated(lanes, rec)
    {
      waiting := [];
      var groups := rec.spec.startAfter;
      for i := 0 to |groups|
        invariant waiting == Blocking(groups[..i], lanes)
      {
        assert groups[..i + 1][..i] == groups[..i];
        var w := GroupWaiting(groups[i]);
        if w {
          waiting := waiting + [groups[i]];
        }
      }
      assert groups[..|groups|] == groups;
      BlockingSpec(groups, lanes);
    }

    /** The order names every lane of the table and no other. */
    ghost predicate Ordered()
      reads this
    {
      forall id :: id in order <==> id in lanes
    }

    /** In announce order, every lane the table offers and no other. */
    method Assigned() returns (out: seq<LaneID>)
      requires Ordered()
      ensures forall id :: id in out <==> MayRead(lanes, finishPending, id)
      ensures InOrder(out, order)
      ensures out == OfferedIn(order, lanes, finishPending)
      ensures forall id, w :: id in out <==> id in LaneTableSpec.Assigned(Seen(w))
    {
      out := [];
      for i := 0 to |order|
        invariant out == OfferedIn(order[..i], lanes, finishPending)
      {
        assert order[..i + 1][..i] == order[..i];
        assert order[i] in order;
        var rec := lanes[order[i]];
        if !rec.finished && order[i] !in finishPending {
          var gated := GatedOn(rec);
          if gated == [] {
            out := out + [order[i]];
          }
        }
      }
      assert order[..|order|] == order;
      OfferedSpec(order, lanes, finishPending);
      forall id
        ensures id in out <==> MayRead(lanes, finishPending, id)
      {
        OfferedMeans(lanes, finishPending, id);
      }
    }

    // ---- writing -----------------------------------------------------------------------------------

    method Notify()
      modifies this`changes
      ensures changes == old(changes) + 1
    {
      changes := changes + 1;
    }

    /** The rows of a cursor flush, with the versions they present. */
    method Stage(positions: map<LaneID, int>, epoch: nat)
      returns (batch: Table, presented: map<LaneID, nat>, staged: map<LaneID, int>)
      requires lanes.Keys == versions.Keys
      ensures staged == Known(positions, lanes)
      ensures batch == CursorRows(lanes, staged, epoch) && presented == Presented(versions, staged)
    {
      batch, presented, staged := map[], map[], map[];
      var todo := positions.Keys;
      while todo != {}
        invariant todo <= positions.Keys
        invariant staged == Known(positions - todo, lanes)
        invariant batch == CursorRows(lanes, staged, epoch) && presented == Presented(versions, staged)
      {
        var id :| id in todo;
        todo := todo - {id};
        if id in lanes {
          batch := batch[id := lanes[id].(cursor := positions[id], epoch := epoch)];
          presented := presented[id := versions[id]];
          staged := staged[id := positions[id]];
        }
      }
      assert positions - {} == positions;
    }

    /** The view follows once the batch landed. */
    method StageDone(staged: map<LaneID, int>)
      requires staged.Keys <= lanes.Keys == versions.Keys
      modifies this`lanes, this`versions
      ensures lanes == MovedCursors(old(lanes), staged) && versions == Bumped(old(versions), staged)
    {
      var todo := staged.Keys;
      while todo != {}
        invariant todo <= staged.Keys
        invariant lanes == MovedCursors(old(lanes), staged - todo) && versions == Bumped(old(versions), staged - todo)
      {
        var id :| id in todo;
        todo := todo - {id};
        lanes := lanes[id := lanes[id].(cursor := staged[id])];
        versions := versions[id := versions[id] + 1];
      }
      assert staged - {} == staged;
    }

    /**
     A cursor flush: the batch, the store, the view. It answers success exactly when there was nothing to
     write or the store took it; then every known lane is stored and seen at its position, under the epoch,
     and else nothing has changed.
     */
    method Commit(positions: map<LaneID, int>, epoch: nat, up: bool) returns (ok: bool)
      requires lanes.Keys == versions.Keys
      modifies this, store
      ensures ok <==>
              || (forall id :: id in positions ==> id !in old(lanes))
              || (up && forall id :: id in positions && id in old(lanes) ==>
                    Version(old(store.rows), id) == old(versions)[id])
      ensures ok ==> AtPositions(old(lanes), positions, epoch, lanes, store.rows)
      ensures !ok ==> store.rows == old(store.rows) && lanes == old(lanes) && versions == old(versions)
      ensures OthersSame(old(lanes), old(store.rows), positions, lanes, store.rows)
      ensures Follows(DoApply(DoWrite(old(Seen(Staging(Known(positions, lanes), epoch, Unsent))), up)))
      ensures order == old(order) && finishPending == old(finishPending) && changes == old(changes)
    {
      ghost var s := Seen(Staging(Known(positions, lanes), epoch, Unsent));
      ok := WriteCursors(positions, epoch, up);
      FlushMeans(s, positions, up, ok, lanes, store.rows);
      StageFollows(s, up, ok);
    }

    /** The batch goes to the store if there is one, and the view follows it. */
    method WriteCursors(positions: map<LaneID, int>, epoch: nat, up: bool) returns (ok: bool)
      requires lanes.Keys == versions.Keys
      modifies this`lanes, this`versions, store
      ensures var staged := Known(positions, old(lanes));
              var rows := CursorRows(old(lanes), staged, epoch);
              && (ok <==> rows == map[] || (up && Matches(old(store.rows), rows, Presented(old(versions), staged))))
              && store.rows == (if ok then Put(old(store.rows), rows) else old(store.rows))
              && lanes == (if ok then MovedCursors(old(lanes), staged) else old(lanes))
              && versions == (if ok then Bumped(old(versions), staged) else old(versions))
    {
      var batch, presented, staged := Stage(positions, epoch);
      if batch == map[] {
        NoRows(lanes, versions, store.rows, staged, epoch);
        return true;
      }
      ok := store.Set(batch, presented, up);
      if ok {
        StageDone(staged);
      }
    }

    /** One row is replaced by its next value. */
    method Mutate(id: LaneID, next: LaneRec, up: bool, ghost retires: bool) returns (ok: bool)
      requires lanes.Keys == versions.Keys && id in lanes
      modifies this, store
      ensures Follows(DoApply(DoWrite(old(Seen(Mutating(id, next, retires, Unsent))), up)))
      ensures ok <==> DoWrite(old(Seen(Mutating(id, next, retires, Unsent))), up).writer.landing.Landed?
      ensures order == old(order) && finishPending == old(finishPending) && changes == old(changes)
    {
      ok := store.Set(map[id := next], map[id := versions[id]], up);
      if ok {
        lanes := lanes[id := next];
        versions := versions[id := versions[id] + 1];
      }
    }

    /**
     A finish becomes durable: the row, then the pending mark, then whoever waits is woken. A write that
     fails, or a lane nobody announced, changes nothing and wakes nobody.
     */
    method Retire(id: LaneID, up: bool) returns (ok: bool)
      requires lanes.Keys == versions.Keys
      modifies this, store
      ensures order == old(order)
      ensures Retired(old(Seen(Free)), id, up, ok)
    {
      if id !in lanes {
        return false;
      }
      var next := lanes[id].(finished := true, stamped := true);
      ok := Mutate(id, next, up, true);
      if ok {
        finishPending := finishPending - {id};
        Notify();
      }
    }

    /** What a finish leaves behind of the state it found. */
    ghost predicate Retired(s: State, id: LaneID, up: bool, ok: bool)
      reads this, store
    {
      && finishPending == (if ok then s.finishPending - {id} else s.finishPending)
      && changes == (if ok then s.changes + 1 else s.changes)
      && (ok <==> id in s.lanes && id in s.versions && up && Version(s.store, id) == s.versions[id])
      && (if id in s.lanes then
            var next := s.lanes[id].(finished := true, stamped := true);
            var t := DoWrite(s.(writer := Mutating(id, next, true, Unsent)), up);
            && Follows(DoApply(t)) && (ok <==> t.writer.landing.Landed?)
            && (ok ==> id in store.rows && store.rows[id].rec == lanes[id] == next)
          else !ok)
      && (!ok ==> Follows(s))
    }

    /**
     A lane is finished. `settled` is the ledger's answer to the request: only then is the finish made
     durable here; otherwise the lane leaves the read set and its row stays unfinished.
     */
    method Finish(id: LaneID, settled: bool, up: bool) returns (ok: bool)
      requires lanes.Keys == versions.Keys
      modifies this, store
      ensures !settled ==> ok && store.rows == old(store.rows) && lanes == old(lanes) && versions == old(versions)
      ensures !settled ==> finishPending == old(finishPending) + {id} && changes == old(changes) + 1
      ensures settled ==> Retired(old(Seen(Free)), id, up, ok)
      ensures order == old(order)
    {
      if settled {
        ok := Retire(id, up);
        return;
      }
      finishPending := finishPending + {id};
      Notify();
      ok := true;
    }

    /** The rows of the lanes that are new, in one write if there are any, and then the view. */
    method AddRows(specs: seq<Named>, up: bool) returns (ok: bool)
      requires lanes.Keys == versions.Keys
      modifies this`lanes, this`versions, this`order, store
      ensures var s := old(Seen(BeginAnnounce(Unknown(specs, |specs|, lanes), RegsOf(specs))));
              && Follows(Joined(s, up)) && (ok <==> Joined(s, up).writer.Announced?)
              && Joined(s, up).led == s.led && Joined(s, up).changes == s.changes
      ensures order == if ok then old(order) + NewIn(specs, |specs|, old(lanes)) else old(order)
      ensures old(Ordered()) ==> Ordered()
    {
      UnknownSpec(specs, |specs|, lanes);
      NewSpec(specs, |specs|, lanes);
      var batch, presented := NewRows(specs);
      ok := true;
      if batch != map[] {
        AnnounceEffect(Seen(Announcing(Unknown(specs, |specs|, lanes), RegsOf(specs), Unsent)), up);
        ok := store.Set(batch, presented, up);
      }
      if ok {
        Join(specs, batch);
      }
    }

    /** Every lane of the announcement, new or known, is registered with the ledger, up to the first refusal. */
    method RegisterEach(specs: seq<Named>, ghost s: State) returns (ok: bool)
      requires ledger.Valid() && s.writer.Announced? && s.writer.regs == RegsOf(specs) && s.led == ledger.State()
      modifies ledger
      ensures ledger.Valid() && ledger.State() == Registered(s).led
      ensures Registered(s).changes == if ok then s.changes + 1 else s.changes
    {
      ghost var t := s;
      for i := 0 to |specs|
        invariant ledger.Valid() && t.writer.Announced? && t.writer.regs == RegsOf(specs)[i..]
        invariant t.led == ledger.State() && Registered(s) == Registered(t) && t.changes == s.changes
      {
        RegisterOne(t);
        assert RegsOf(specs)[i..][1..] == RegsOf(specs)[i + 1..];
        var r := RegOf(specs[i]);
        var err := ledger.RegisterLane(r.lane, r.ordering, r.budget, r.whenFull, r.dflt);
        if err.Some? {
          return false;
        }
        t := t.(led := ledger.State(), writer := Announced(t.writer.joined, t.writer.regs[1..]));
      }
      return true;
    }

    /**
     New lanes join the store and the table, every lane is registered with the ledger, and whoever waits
     for the table is woken. An announcement of nothing does nothing; one that fails half way leaves what
     it did and wakes nobody.
     */
    method Announce(specs: seq<Named>, up: bool) returns (ok: bool)
      requires lanes.Keys == versions.Keys && ledger.Valid()
      modifies this, store, ledger
      ensures ok ==> forall i :: 0 <= i < |specs| ==>
                && JoinedAs(old(lanes), lanes, store.rows, specs[i].id)
                && Knows(ledger.State(), specs[i].id, specs[i].ordering)
      ensures ledger.Valid() && finishPending == old(finishPending) && (old(Ordered()) ==> Ordered())
      ensures specs == [] ==>
                ok && Follows(old(Seen(Free))) && order == old(order) && changes == old(changes) &&
                ledger.State() == old(ledger.State())
      ensures specs != [] ==> var s := old(Seen(BeginAnnounce(Unknown(specs, |specs|, lanes), RegsOf(specs))));
                              AnnouncedFrom(specs, s, up, ok, old(order))
    {
      if specs == [] {
        return true;
      }
      ghost var s := Seen(BeginAnnounce(Unknown(specs, |specs|, lanes), RegsOf(specs)));
      ok := AnnounceSome(specs, up);
      if ok {
        AnnouncedTo(specs, s, up);
      }
    }

    /** Store, table, ledger and channel are where the state machine takes them from s. */
    ghost predicate AnnouncedFrom(specs: seq<Named>, s: State, up: bool, ok: bool, first: seq<LaneID>)
      requires Announces(s)
      reads this, store, ledger
    {
      var t := AnnouncedAll(s, up);
      && Follows(t) && ledger.State() == t.led && changes == t.changes && (ok <==> t.changes == s.changes + 1)
      && order == if Joined(s, up).writer.Announced? then first + NewIn(specs, |specs|, s.lanes) else first
    }

    method AnnounceSome(specs: seq<Named>, up: bool) returns (ok: bool)
      requires lanes.Keys == versions.Keys && ledger.Valid()
      modifies this, store, ledger
      ensures ledger.Valid() && finishPending == old(finishPending) && (old(Ordered()) ==> Ordered())
      ensures var s := old(Seen(BeginAnnounce(Unknown(specs, |specs|, lanes), RegsOf(specs))));
              AnnouncedFrom(specs, s, up, ok, old(order))
    {
      ghost var s := Seen(BeginAnnounce(Unknown(specs, |specs|, lanes), RegsOf(specs)));
      ok := AddRows(specs, up);
      if ok {
        RegisteredTable(Joined(s, up));
        ok := RegisterEach(specs, Joined(s, up));
        if ok {
          Notify();
        }
      }
    }

    lemma AnnouncedTo(specs: seq<Named>, s: State, up: bool)
      requires s.writer == BeginAnnounce(Unknown(specs, |specs|, s.lanes), RegsOf(specs))
      requires AnnouncedAll(s, up).changes == s.changes + 1
      ensures var t := AnnouncedAll(s, up);
              forall i :: 0 <= i < |specs| ==>
                JoinedAs(s.lanes, t.lanes, t.store, specs[i].id) && Knows(t.led, specs[i].id, specs[i].ordering)
    {
      UnknownSpec(specs, |specs|, s.lanes);
      var added := Unknown(specs, |specs|, s.lanes);
      ClosedIsJoined(s, added, RegsOf(specs), up);
      AnnouncedTable(s, added, RegsOf(specs), up);
      AnnouncedLedger(s, added, RegsOf(specs), up);
      assert forall i :: 0 <= i < |specs| ==> RegsOf(specs)[i] == RegOf(specs[i]) && RegsOf(specs)[i] in RegsOf(specs);
    }

    method NewRows(specs: seq<Named>) returns (batch: Table, presented: map<LaneID, nat>)
      ensures batch == FreshRows(Unknown(specs, |specs|, lanes))
      ensures presented == Zeros(Unknown(specs, |specs|, lanes))
    {
      batch, presented := map[], map[];
      for i := 0 to |specs|
        invariant batch == FreshRows(Unknown(specs, i, lanes)) && presented == Zeros(Unknown(specs, i, lanes))
      {
        if specs[i].id !in lanes {
          batch := batch[specs[i].id := Fresh(specs[i].spec)];
          presented := presented[specs[i].id := 0];
        }
      }
    }

    /** The new lanes join the view at version one, in announce order. */
    method Join(specs: seq<Named>, batch: Table)
      requires batch == FreshRows(Unknown(specs, |specs|, lanes))
      modifies this`lanes, this`versions, this`order
      ensures lanes == old(lanes) + batch
      ensures versions == old(versions) + FirstVersions(Unknown(specs, |specs|, old(lanes)))
      ensures order == old(order) + NewIn(specs, |specs|, old(lanes))
    {
      UnknownSpec(specs, |specs|, lanes);
      for i := 0 to |specs|
        invariant JoinedTo(old(lanes), old(versions), old(order), specs, i)
      {
        JoinNext(old(lanes), old(versions), old(order), specs, i);
        if specs[i].id in batch {
          Add(specs[i]);
        }
      }
    }

    method Add(n: Named)
      modifies this`lanes, this`versions, this`order
      ensures lanes == old(lanes)[n.id := Fresh(n.spec)] && versions == old(versions)[n.id := 1] &&
              order == old(order) + [n.id]
    {
      lanes := lanes[n.id := Fresh(n.spec)];
      versions := versions[n.id := 1];
      order := order + [n.id];
    }

    ghost predicate JoinedTo(was: Table, before: map<LaneID, nat>, first: seq<LaneID>, specs: seq<Named>, i: nat)
      requires i <= |specs|
      reads this
    {
      && lanes == was + FreshRows(Unknown(specs, i, was))
      && versions == before + FirstVersions(Unknown(specs, i, was))
      && order == first + NewIn(specs, i, was)
    }
  }
}
