/**
 One lane of the ledger over its tracker: the counters are the lane's own, the log is the linked
 list's. Every step is the step of LedgerSpec on the lane whose log is the tracker's.
 */
module TrackedLanes {
  import opened Wrappers
  import opened Records
  import opened Trackers
  import Spec = LedgerSpec
  import T = TrackerSpec

  /** Publishing touches neither the log nor the history. */
  lemma IdleView(lane: Spec.Lane, log: T.Log<Position>, h: Spec.History, pos: Position, a: Spec.Admission)
    ensures var after := T.TrackResolved(log, pos);
            Spec.AdmitIdle(lane.(log := log, history := h), pos, a) ==
            Spec.Publish(lane, T.Advance(log, after)).(
              log := after, history := h.(admissions := h.admissions + [a]))
  {}

  class TrackedLane {
    const tracker: Tracker<Position>
    var lane: Spec.Lane
    var tickets: map<GroupID, Node<Position>>
    ghost var history: Spec.History

    /** The lane as the ledger's specification has it. */
    ghost function View(): Spec.Lane
      reads this, tracker
    {
      lane.(log := tracker.log, history := history)
    }

    ghost predicate Valid()
      reads this, tracker, tracker.spine, tracker.issued
    {
      && tracker.Valid() && !tracker.closed && tracker.budget == lane.budget
      && tickets.Values <= tracker.issued
    }

    constructor (ordering: Ordering, budget: nat, whenFull: WhenFull)
      requires budget > 0
      ensures Valid() && View() == Spec.NewLane(ordering, budget, whenFull) && tickets == map[]
    {
      tracker := new Tracker(budget);
      lane := Spec.NewLane(ordering, budget, whenFull);
      tickets := map[];
      history := Spec.NO_HISTORY;
    }

    /** What the tracker reports is published; only a safe position may be flushed. */
    method Publish(moved: Option<Position>, ghost a: Spec.Admission)
      modifies this`lane, this`history
      ensures lane == Spec.Publish(old(lane), moved)
      ensures history == old(history).(admissions := old(history).admissions + [a])
    {
      if moved.Some? {
        lane := lane.(resolved := moved);
        if moved.value.safe {
          lane := lane.(pendingFlush := moved);
        }
      }
      history := history.(admissions := history.admissions + [a]);
    }

    method Resolve(pos: Position) returns (moved: Option<Position>)
      requires Valid()
      modifies tracker, tracker.spine
      ensures Valid()
      ensures tracker.log == T.TrackResolved(old(tracker.log), pos)
      ensures moved == T.Advance(old(tracker.log), tracker.log)
    {
      moved := tracker.TrackResolved(pos);
    }

    /** A position with no records takes its place and is published if the prefix reaches it. */
    method Idle(pos: Position, ghost a: Spec.Admission)
      requires Valid()
      modifies this, tracker, tracker.spine
      ensures Valid() && View() == Spec.AdmitIdle(old(View()), pos, a) && tickets == old(tickets)
    {
      ghost var l, log, h := lane, tracker.log, history;
      var moved := Resolve(pos);
      Publish(moved, a);
      IdleView(l, log, h, pos, a);
    }

    /** A batch is tracked if it fits, and its ticket is the place it took. */
    method Track(g: GroupID, n: nat, pos: Position) returns (ok: bool)
      requires Valid()
      modifies this, tracker, tracker.spine
      ensures Valid()
      ensures ok <==> T.Admits(old(View()).log, lane.budget, n)
      ensures !ok ==> View() == old(View()) && tickets == old(tickets)
      ensures ok ==>
                && View() == old(View()).(log := T.Track(old(View()).log, pos, n, n))
                && g in tickets && tickets == old(tickets)[g := tickets[g]] && tickets[g].at == |old(View()).log|
    {
      var t := tracker.TryTrack(pos, n, n);
      ok := t != null;
      if ok {
        tickets := tickets[g := t];
      }
    }

    /** An outcome discharges references of a ticket, and reports how far the prefix moved. */
    method Discharge(k: Node<Position>, n: nat, abandon: bool) returns (moved: Option<Position>)
      requires tracker.Valid() && k in tracker.issued
      modifies tracker`head, tracker`tail, tracker`nodes, tracker`spine, tracker`kept, tracker`log, tracker`base
      modifies tracker`pending, tracker`settled, tracker`abandoned, tracker`report, tracker`wake, tracker.spine
      ensures tracker.Valid()
      ensures k.at < |old(tracker.log)| && tracker.log == T.Discharge(old(tracker.log), k.at, n, abandon)
      ensures moved == T.Advance(old(tracker.log), tracker.log)
    {
      moved := tracker.Discharge(k, n, abandon);
    }

    /** An outcome for a group, over its ticket. */
    method Outcome(g: GroupID, n: nat, abandon: bool) returns (moved: Option<Position>)
      requires Valid() && g in tickets
      modifies tracker`head, tracker`tail, tracker`nodes, tracker`spine, tracker`kept, tracker`log, tracker`base
      modifies tracker`pending, tracker`settled, tracker`abandoned, tracker`report, tracker`wake, tracker.spine
      ensures Valid() && moved == T.Advance(old(tracker.log), tracker.log)
      ensures tickets[g].at < |old(tracker.log)|
      ensures tracker.log == T.Discharge(old(tracker.log), tickets[g].at, n, abandon)
    {
      moved := Discharge(tickets[g], n, abandon);
    }
  }
}
