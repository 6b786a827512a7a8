/**
 The tracker itself: a singly linked list of admissions with head and tail pointers, weight
 counters, and a wake channel that is closed and replaced whenever the prefix moves.

 Every method is proved against the log of TrackerSpec. The log has one entry per call, while
 the list merges adjacent idle positions into one node and forgets what has been retired, so
 the equations below also say that coalescing cannot be observed.
 */
module Trackers {
  import opened Wrappers
  import S = TrackerSpec

  /**
   The wake channels of a tracker, numbered in the order they are made. A tracker only ever
   closes its current channel and makes the next one in the same step, so a channel is closed
   exactly when its number is below that of the current one.
   */
  type Chan = nat

  class Node<P> {
    var payload: P
    var weight: nat
    var refs: nat
    var resolved: bool
    var abandoned: bool
    var done: bool
    var next: Node?<P>

    /** The admission this node stands for; a merged idle node stands for its latest. */
    ghost var at: nat

    constructor (payload: P, weight: nat, refs: nat, resolved: bool, ghost at: nat)
      ensures this.payload == payload && this.weight == weight && this.refs == refs
      ensures this.resolved == resolved && !abandoned && !done && next == null
      ensures this.at == at
    {
      this.at := at;
      this.payload, this.weight, this.refs, this.resolved := payload, weight, refs, resolved;
      abandoned, done, next := false, false, null;
    }

    ghost function View(): S.Entry<P>
      reads this
    {
      S.Entry(payload, weight, refs, abandoned)
    }
  }

  /** What one lap of the admission loop ends in. */
  datatype Lap<P> = Admitted(ticket: Node<P>) | Closed | Wait(wake: Chan)

  class Tracker<P> {
    var head: Node?<P>
    var tail: Node?<P>
    var pending: nat
    var nodes: nat
    const budget: nat
    var wake: Chan
    var report: Option<P>
    var admitted: nat
    var settled: nat
    var abandoned: nat
    var closed: bool

    /** Every admission so far, and how many of them have been retired. */
    ghost var log: S.Log<P>
    ghost var base: nat
    /** The nodes on the list, head first, and the admissions they stand for. */
    ghost var spine: seq<Node<P>>
    ghost var kept: seq<nat>
    /** Every ticket ever handed out. */
    ghost var issued: set<Node<P>>
    /** Every wait ever handed out: the channel held and the weight that did not fit. */
    ghost var waits: set<(Chan, nat)>

    // ---- representation ------------------------------------------------------------------------

    ghost predicate Linked()
      reads this`head, this`tail, this`nodes, this`spine, spine`next
    {
      && nodes == |spine|
      && (spine == [] ==> head == null && tail == null)
      && (spine != [] ==> head == spine[0] && tail == spine[|spine| - 1] && tail.next == null)
      && (forall i: nat, j: nat {:trigger Follows(i, j)} :: i + 1 == j < |spine| ==> Follows(i, j))
      && (forall i: nat, j: nat {:trigger Differ(i, j)} :: i < j < |spine| ==> Differ(i, j))
    }

    ghost predicate Follows(i: nat, j: nat)
      requires i < |spine| && j < |spine|
      reads this`spine, spine`next
    {
      spine[i].next == spine[j]
    }

    ghost predicate Differ(i: nat, j: nat)
      requires i < |spine| && j < |spine|
      reads this`spine
    {
      spine[i] != spine[j]
    }

    ghost predicate Holds(n: Node<P>, i: nat)
      requires i < |log|
      reads this`log, n
    {
      && n.at == i
      && n.View() == log[i]
      && !n.done
      && (n.resolved <==> n.refs == 0)
    }

    /** Node for node, the list holds the admissions in `kept`. */
    ghost predicate Fields()
      reads this`spine, this`kept, this`log, spine
    {
      && |spine| == |kept|
      && (forall j: nat {:trigger HoldsAt(j)} :: j < |spine| ==> HoldsAt(j))
    }

    ghost predicate HoldsAt(j: nat)
      requires j < |spine| == |kept|
      reads this`spine, this`kept, this`log, spine
    {
      kept[j] < |log| && Holds(spine[j], kept[j])
    }

    /** Every ticket handed out is either retired for good or still on the list. */
    ghost predicate Tickets()
      reads this`issued, this`spine, this`base, issued
    {
      forall n :: n in issued ==>
        && n.weight > 0
        && (if n.done then n.at < base else n in spine)
    }

    ghost function Counters(): S.Counts
      reads this`pending, this`admitted, this`settled, this`abandoned
    {
      S.Counts(pending, admitted, settled, abandoned)
    }

    /** The representation invariant, which also holds in the middle of a retirement. */
    ghost predicate Shape()
      reads this`head, this`tail, this`nodes, this`spine, this`kept, this`log, this`base, this`issued
      reads this`pending, this`admitted, this`settled, this`abandoned, spine, issued
    {
      && Linked()
      && Fields()
      && Tickets()
      && S.Retired(log, base, kept, Counters())
    }

    /**
     No lost wake-up: whoever was told to wait holds a channel that is already closed, or the
     current channel while its admission test is still false.
     */
    ghost predicate NoLostWakeup()
      reads this`wake, this`waits, this`closed, this`log
    {
      forall w :: w in waits ==>
        w.0 < wake || (w.0 == wake && !closed && !S.Admits(log, budget, w.1))
    }

    /** Everything between calls that does not concern waiting. */
    ghost predicate Settled()
      reads this`head, this`tail, this`nodes, this`spine, this`kept, this`log, this`base, this`issued
      reads this`pending, this`admitted, this`settled, this`abandoned, this`report, spine, issued
    {
      && Linked()
      && Fields()
      && Tickets()
      && base == S.Run(log)
      && S.Steady(log, kept, Counters(), budget, report)
    }

    ghost predicate Valid()
      reads this, spine, issued
    {
      Settled() && NoLostWakeup()
    }

    constructor (budget: nat)
      ensures Valid() && |log| == 0 && !closed
      ensures this.budget == if budget == 0 then 1 else budget
      ensures issued == {} && waits == {}
    {
      this.budget := if budget == 0 then 1 else budget;
      head, tail, pending, nodes := null, null, 0, 0;
      report, admitted, settled, abandoned, closed := None, 0, 0, 0, false;
      wake := 0;
      ghost var s, k, l := Nothing();
      spine, kept, log, base, issued, waits := s, k, l, 0, {}, {};
      new;
      Fresh();
    }

    static ghost method Nothing() returns (spine: seq<Node<P>>, kept: seq<nat>, log: S.Log<P>)
      ensures |spine| == |kept| == |log| == 0
    {
      spine, kept, log := [], [], [];
    }

    lemma Fresh()
      requires head == null && tail == null && nodes == |spine| == |kept| == |log| == base == 0
      requires Counters() == S.Counts(0, 0, 0, 0) && report == None
      requires issued == {} && waits == {}
      ensures Valid()
    {
      S.SteadyEmpty(log, kept, Counters(), budget, report);
    }

    // ---- internal steps --------------------------------------------------------------------------

    /** Links n at the tail. */
    method LinkTail(n: Node<P>)
      requires Linked() && n !in spine && n.next == null
      modifies this`head, this`tail, this`nodes, this`spine, spine`next
      ensures Linked() && spine == old(spine) + [n]
    {
      if tail == null {
        head, tail := n, n;
      } else {
        tail.next := n;
        tail := n;
      }
      nodes := nodes + 1;
      spine := spine + [n];
      ghost var m := |old(spine)|;
      forall i: nat, j: nat | i + 1 == j < |spine|
        ensures Follows(i, j)
      {
        assert j < m ==> old(Follows(i, j)) && old(Differ(i, m - 1));
      }
      forall i: nat, j: nat | i < j < |spine|
        ensures Differ(i, j)
      {
        assert j < m ==> old(Differ(i, j));
      }
    }

    /** Takes the head off the list and marks it so. */
    method UnlinkHead()
      requires Linked() && head != null
      modifies this`head, this`tail, this`nodes, this`spine, head`done, head`next
      ensures Linked() && spine == old(spine)[1..] && old(head).done
    {
      var n := head;
      assert |spine| > 1 ==> Follows(0, 1) && Differ(0, |spine| - 1);
      head := n.next;
      if head == null {
        tail := null;
      }
      n.done, n.next := true, null;
      nodes := nodes - 1;
      spine := spine[1..];
      forall i: nat, j: nat | i < j < |spine|
        ensures Differ(i, j) && (j == i + 1 ==> Follows(i, j))
      {
        assert old(Differ(i + 1, j + 1)) && old(Differ(0, i + 1));
        assert j == i + 1 ==> old(Follows(i + 1, j + 1));
      }
    }

    /** Takes the head off the list together with the admissions it stands for. */
    method DropHead()
      requires Linked() && Fields() && Tickets() && head != null && base <= kept[0]
      modifies this`head, this`tail, this`nodes, this`spine, this`kept, this`base, head`done, head`next
      ensures Linked() && Fields() && Tickets()
      ensures spine == old(spine)[1..] && kept == old(kept)[1..] && base == old(kept)[0] + 1
    {
      assert HoldsAt(0);
      UnlinkHead();
      kept, base := kept[1..], kept[0] + 1;
      forall j: nat | j < |spine|
        ensures HoldsAt(j)
      {
        assert old(HoldsAt(j + 1)) && old(Differ(0, j + 1));
      }
    }

    method CountRetired(n: Node<P>)
      requires n.weight <= pending
      modifies this`pending, this`settled, this`abandoned
      ensures Counters() == S.RetireCounts(old(Counters()), n.View())
    {
      pending := pending - n.weight;
      if n.abandoned {
        abandoned := abandoned + n.weight;
      } else {
        settled := settled + n.weight;
      }
    }

    /** Retires a resolved head. */
    method RetireHead()
      requires Shape() && head != null && head.resolved
      modifies this`head, this`tail, this`nodes, this`spine, this`kept, this`base
      modifies head`done, head`next, this`pending, this`settled, this`abandoned
      ensures Shape() && spine == old(spine)[1..]
      ensures old(base) < base && log[base - 1].payload == old(head.payload)
    {
      assert HoldsAt(0);
      ghost var i, c := kept[0], Counters();
      assert log[i].payload == head.payload;
      S.RetireStep(log, base, kept, c);
      CountRetired(head);
      assert Counters() == S.RetireCounts(c, log[i]);
      DropHead();
    }

    /** Links a node for the next admission and records it. */
    method PushTail(n: Node<P>)
      requires Linked() && Fields() && Tickets() && n !in spine && n !in issued
      requires n.next == null && !n.done && n.at == |log| && (n.resolved <==> n.refs == 0)
      modifies this`head, this`tail, this`nodes, this`spine, this`kept, this`log, this`issued, spine`next
      ensures Linked() && Fields() && Tickets()
      ensures spine == old(spine) + [n] && kept == old(kept) + [|old(log)|]
      ensures log == old(log) + [n.View()] && issued == old(issued) + if n.weight > 0 then {n} else {}
    {
      LinkTail(n);
      kept, log, issued := kept + [|log|], log + [n.View()], issued + if n.weight > 0 then {n} else {};
      forall j: nat | j < |spine|
        ensures HoldsAt(j)
      {
        assert j < |old(spine)| ==> old(HoldsAt(j));
      }
    }

    /** When the head stays, nothing resolved is left in front. */
    lemma Drained()
      requires Shape() && (head == null || !head.resolved)
      ensures base == S.Run(log)
    {
      assert kept != [] ==> HoldsAt(0);
      S.RetiredAll(log, base, kept, Counters());
    }

    /** Retires the head while it is resolved, and says where the run then ends if it grew. */
    method RetireRun() returns (a: Option<P>)
      requires Shape()
      modifies this`head, this`tail, this`nodes, this`spine, this`kept, this`base
      modifies spine`done, spine`next, this`pending, this`settled, this`abandoned
      ensures Shape() && old(base) <= base == S.Run(log)
      ensures a == if base > old(base) then Some(log[base - 1].payload) else None
    {
      a := None;
      while head != null && head.resolved
        invariant Shape() && old(base) <= base
        invariant forall n :: n in spine ==> n in old(spine)
        invariant a == if base > old(base) then Some(log[base - 1].payload) else None
        decreases nodes
      {
        a := Some(head.payload);
        assert head in spine;
        RetireHead();
      }
      Drained();
    }

    method Publish(a: Option<P>)
      requires Shape()
      modifies this`report, this`wake
      ensures Shape() && report == a && wake == old(wake) + 1
    {
      report, wake := a, wake + 1;
    }

    /** Retires the resolved prefix; if it moved, reports where it ends and wakes whoever waits. */
    method AdvanceLocked() returns (a: Option<P>)
      requires Shape()
      modifies this`head, this`tail, this`nodes, this`spine, this`kept, this`base
      modifies spine`done, spine`next, this`pending, this`settled, this`abandoned, this`report, this`wake
      ensures Shape() && old(base) <= base == S.Run(log)
      ensures a == if base > old(base) then Some(log[base - 1].payload) else None
      ensures report == if a.Some? then a else old(report)
      ensures wake == if a.Some? then old(wake) + 1 else old(wake)
    {
      a := RetireRun();
      if a.Some? {
        Publish(a);
      }
    }

    /** Allocates and links a node, and counts its weight. */
    method LinkNew(payload: P, weight: nat, refs: nat) returns (n: Node<P>)
      requires Linked() && Fields() && Tickets()
      modifies this`head, this`tail, this`nodes, this`spine, this`kept, this`log, this`issued, spine`next
      modifies this`pending, this`admitted
      ensures Linked() && Fields() && Tickets()
      ensures spine == old(spine) + [n] && kept == old(kept) + [|old(log)|] && n.at == |old(log)|
      ensures log == old(log) + [S.Entry(payload, weight, refs, false)]
      ensures fresh(n) && issued == old(issued) + if weight > 0 then {n} else {}
      ensures Counters() == old(Counters()).(pending := old(pending) + weight, admitted := old(admitted) + weight)
    {
      n := new Node(payload, weight, refs, refs == 0, |log|);
      PushTail(n);
      CountAdmitted(weight);
    }

    method CountAdmitted(weight: nat)
      modifies this`pending, this`admitted
      ensures Counters() == old(Counters()).(pending := old(pending) + weight, admitted := old(admitted) + weight)
    {
      pending, admitted := pending + weight, admitted + weight;
    }

    /** Admits a batch that fits; shared by TryTrack and the waiting form. */
    method Admit(payload: P, weight: nat, refs: nat) returns (t: Node<P>)
      requires Valid() && S.Admits(log, budget, weight)
      modifies this`head, this`tail, this`nodes, this`spine, this`kept, this`log, this`issued, spine`next
      modifies this`pending, this`admitted
      ensures Valid()
      ensures log == S.Track(old(log), payload, weight, refs)
      ensures fresh(t) && issued == old(issued) + {t} && t.at == |old(log)|
    {
      ghost var l, k, c := log, kept, Counters();
      t := LinkNew(payload, S.AtLeastOne(weight), S.AtLeastOne(refs));
      Tracked(l, k, c, payload, weight, refs);
    }

    lemma Tracked(l: S.Log<P>, k: seq<nat>, c: S.Counts, payload: P, weight: nat, refs: nat)
      requires Linked() && Fields() && Tickets() && base == S.Run(l)
      requires S.Steady(l, k, c, budget, report) && S.Admits(l, budget, weight)
      requires log == S.Track(l, payload, weight, refs) && kept == k + [|l|]
      requires Counters() == c.(pending := c.pending + S.AtLeastOne(weight),
               admitted := c.admitted + S.AtLeastOne(weight))
      requires forall w :: w in waits ==> w.0 < wake || (w.0 == wake && !closed && !S.Admits(l, budget, w.1))
      ensures Valid()
    {
      S.TrackValid(l, k, c, payload, weight, refs, budget, report);
    }

    /** A call has changed the log from l, and has yet to retire, report and wake. */
    ghost predicate Changing(l: S.Log<P>)
      reads this`base, this`log, this`report, this`waits, this`wake, this`closed
    {
      && base == S.Run(l) && S.Changed(l, log, budget)
      && S.ReportsRunEnd(S.State(l, report))
      && forall w :: w in waits ==> w.0 < wake || (w.0 == wake && !closed && !S.Admits(l, budget, w.1))
    }

    /** Finishes a call that changed the log from l: retires, reports, wakes. */
    method Conclude(ghost l: S.Log<P>) returns (a: Option<P>)
      requires Shape() && Changing(l)
      modifies this`head, this`tail, this`nodes, this`spine, this`kept, this`base
      modifies spine`done, spine`next, this`pending, this`settled, this`abandoned, this`report, this`wake
      ensures Valid() && a == S.Advance(l, log)
      ensures wake == if a.Some? then old(wake) + 1 else old(wake)
    {
      ghost var was := report;
      a := AdvanceLocked();
      S.AdvanceSteady(l, log, kept, Counters(), budget, was, report);
    }

    // ---- the calls a client makes ------------------------------------------------------------------

    /** Admits if there is room right now, without waiting. */
    method TryTrack(payload: P, weight: nat, refs: nat) returns (t: Node?<P>)
      requires Valid()
      modifies this`head, this`tail, this`nodes, this`spine, this`kept, this`log, this`issued, spine`next
      modifies this`pending, this`admitted
      ensures Valid()
      ensures t != null <==> !closed && S.Admits(old(log), budget, weight)
      ensures t == null ==> log == old(log) && issued == old(issued)
      ensures t != null ==>
        && log == S.Track(old(log), payload, weight, refs)
        && fresh(t) && issued == old(issued) + {t} && t.at == |old(log)|
    {
      t := null;
      Room(weight);
      if !closed && (nodes == 0 || pending + S.AtLeastOne(weight) <= budget) {
        t := Admit(payload, weight, refs);
      }
    }

    /** The admission test the counters make is the one the log defines. */
    lemma Room(weight: nat)
      requires Valid()
      ensures S.Admits(log, budget, weight) <==> nodes == 0 || pending + S.AtLeastOne(weight) <= budget
    {
      S.KeptShape(log, base);
    }

    /**
     One lap of the waiting admission. A caller told to wait comes back when the channel it was
     given is closed, or gives up.
     */
    method TrackLap(payload: P, weight: nat, refs: nat) returns (r: Lap<P>)
      requires Valid()
      modifies this`head, this`tail, this`nodes, this`spine, this`kept, this`log, this`issued, spine`next
      modifies this`pending, this`admitted, this`waits
      ensures Valid()
      ensures r.Closed? <==> closed
      ensures r.Admitted? <==> !closed && S.Admits(old(log), budget, weight)
      ensures !r.Admitted? ==> log == old(log) && issued == old(issued)
      ensures r.Admitted? ==>
        && log == S.Track(old(log), payload, weight, refs)
        && fresh(r.ticket) && issued == old(issued) + {r.ticket} && r.ticket.at == |old(log)|
      ensures r.Wait? ==> r.wake == wake && waits == old(waits) + {(wake, weight)}
      ensures !r.Wait? ==> waits == old(waits)
    {
      Room(weight);
      if closed {
        r := Closed;
      } else if nodes == 0 || pending + S.AtLeastOne(weight) <= budget {
        var t := Admit(payload, weight, refs);
        r := Admitted(t);
      } else {
        r := Enqueue(weight);
      }
    }

    /** The caller holds the current channel while its admission test is false. */
    method Enqueue(weight: nat) returns (r: Lap<P>)
      requires NoLostWakeup() && !closed && !S.Admits(log, budget, weight)
      modifies this`waits
      ensures NoLostWakeup() && r == Wait(wake) && waits == old(waits) + {(wake, weight)}
    {
      waits := waits + {(wake, weight)};
      r := Wait(wake);
    }

    /** Lets the idle tail stand for a later position. */
    method Merge(payload: P)
      requires Linked() && Fields() && Tickets() && spine != []
      requires tail.weight == 0 && tail.refs == 0 && !tail.abandoned
      modifies this`log, this`kept, tail`payload, tail`at
      ensures Linked() && Fields() && Tickets()
      ensures log == S.TrackResolved(old(log), payload) && kept == old(kept)[..|spine| - 1] + [|old(log)|]
    {
      ghost var m := |spine| - 1;
      assert HoldsAt(m);
      tail.payload := payload;
      tail.at := |log|;
      kept, log := kept[..m] + [|log|], S.TrackResolved(log, payload);
      forall j: nat | j < m
        ensures HoldsAt(j)
      {
        assert old(HoldsAt(j)) && Differ(j, m);
      }
    }

    /** Puts an idle position at the tail, in the idle node already there if there is one. */
    method PushIdle(payload: P)
      requires Linked() && Fields() && Tickets()
      requires S.WellFormedLog(log)
      modifies this`head, this`tail, this`nodes, this`spine, this`kept, this`log, this`issued, spine
      modifies this`pending, this`admitted
      ensures Linked() && Fields() && Tickets() && issued == old(issued)
      ensures forall i :: 0 <= i < |spine| ==> if i < |old(spine)| then spine[i] == old(spine)[i] else fresh(spine[i])
      ensures log == S.TrackResolved(old(log), payload)
      ensures kept == S.KeptIdle(old(log), old(kept)) + [|old(log)|]
      ensures Counters() == old(Counters())
    {
      assert tail != null ==> HoldsAt(|kept| - 1);
      if tail != null && tail.resolved && tail.weight == 0 && tail.refs == 0 {
        Merge(payload);
      } else {
        var _ := LinkNew(payload, 0, 0);
      }
    }

    lemma Idled(l: S.Log<P>, k: seq<nat>, c: S.Counts, payload: P)
      requires Linked() && Fields() && Tickets() && base == S.Run(l)
      requires S.Steady(l, k, c, budget, report) && Counters() == c
      requires log == S.TrackResolved(l, payload) && kept == S.KeptIdle(l, k) + [|l|]
      ensures Shape() && S.Changed(l, log, budget)
    {
      S.IdleRetired(l, k, c, payload);
      S.IdleChanged(l, budget, payload);
    }

    /** Records an idle position, leaving retirement to the caller. */
    method StageIdle(payload: P)
      requires Valid()
      modifies this`head, this`tail, this`nodes, this`spine, this`kept, this`log, this`issued, spine
      modifies this`pending, this`admitted
      ensures Shape() && issued == old(issued) && Changing(old(log))
      ensures log == S.TrackResolved(old(log), payload)
      ensures forall i :: 0 <= i < |spine| ==> if i < |old(spine)| then spine[i] == old(spine)[i] else fresh(spine[i])
    {
      ghost var l, k, c := log, kept, Counters();
      PushIdle(payload);
      Idled(l, k, c, payload);
    }

    method TrackIdle(payload: P) returns (a: Option<P>)
      requires Valid()
      modifies this`head, this`tail, this`nodes, this`spine, this`kept, this`log, this`issued, spine, this`base
      modifies this`pending, this`admitted, this`settled, this`abandoned, this`report, this`wake
      ensures Valid() && issued == old(issued) && log == S.TrackResolved(old(log), payload)
      ensures a == S.Advance(old(log), log)
    {
      StageIdle(payload);
      a := Conclude(old(log));
    }

    /** Admits a position that carries no records; a run of them at the tail shares one node. */
    method TrackResolved(payload: P) returns (a: Option<P>)
      requires Valid()
      modifies this`head, this`tail, this`nodes, this`spine, this`kept, this`log, this`issued, spine, this`base
      modifies this`pending, this`admitted, this`settled, this`abandoned, this`report, this`wake
      ensures Valid() && issued == old(issued)
      ensures log == if closed then old(log) else S.TrackResolved(old(log), payload)
      ensures a == S.Advance(old(log), log)
    {
      if closed {
        a := None;
      } else {
        a := TrackIdle(payload);
      }
    }

    /** Discharges references of a node, on the node itself. */
    method DischargeNode(k: Node<P>, n: nat, abandon: bool)
      requires k.resolved <==> k.refs == 0
      modifies k`refs, k`abandoned, k`resolved
      ensures k.View() == S.DischargeEntry(old(k.View()), n, abandon)
      ensures k.resolved <==> k.refs == 0
    {
      if abandon {
        k.refs, k.abandoned := 0, true;
      } else if n >= k.refs {
        k.refs := 0;
      } else {
        k.refs := k.refs - n;
      }
      if k.refs == 0 {
        k.resolved := true;
      }
    }

    /** Discharges references of a node that is still on the list. */
    method DischargeLive(k: Node<P>, n: nat, abandon: bool)
      requires Linked() && Fields() && Tickets() && k in issued && !k.done
      requires base == S.Run(log) && kept == S.KeptFrom(log, base)
      modifies this`log, k`refs, k`abandoned, k`resolved
      ensures Linked() && Fields() && Tickets()
      ensures old(base) <= k.at < |old(log)| && old(log)[k.at].weight > 0
      ensures log == S.Discharge(old(log), k.at, n, abandon)
    {
      ghost var i: nat :| i < |spine| && spine[i] == k;
      assert HoldsAt(i);
      S.KeptApart(log, base, kept, i, i);
      log := log[k.at := S.DischargeEntry(k.View(), n, abandon)];
      DischargeNode(k, n, abandon);
      forall j: nat | j < |spine|
        ensures HoldsAt(j)
      {
        assert old(HoldsAt(j));
        S.KeptApart(old(log), base, kept, j, i);
      }
    }

    lemma Discharged(l: S.Log<P>, c: S.Counts, i: nat, n: nat, abandon: bool)
      requires Linked() && Fields() && Tickets() && base == S.Run(l) <= i < |l| && l[i].weight > 0
      requires S.Steady(l, kept, c, budget, report) && Counters() == c
      requires log == S.Discharge(l, i, n, abandon)
      ensures Shape() && S.Changed(l, log, budget)
    {
      S.DischargeRetired(l, kept, c, i, n, abandon);
      S.DischargeChanged(l, budget, i, n, abandon);
    }

    /** Discharges references of a live ticket, leaving retirement to the caller. */
    method StageDischarge(k: Node<P>, n: nat, abandon: bool)
      requires Valid() && k in issued && !k.done
      modifies this`log, k`refs, k`abandoned, k`resolved
      ensures Shape() && Changing(old(log))
      ensures k.at < |old(log)| && log == S.Discharge(old(log), k.at, n, abandon)
    {
      ghost var l, c := log, Counters();
      DischargeLive(k, n, abandon);
      Discharged(l, c, k.at, n, abandon);
    }

    method DischargeTicket(k: Node<P>, n: nat, abandon: bool) returns (a: Option<P>)
      requires Valid() && k in issued && !k.done
      modifies this`head, this`tail, this`nodes, this`spine, this`kept, this`log, spine, this`base
      modifies this`pending, this`settled, this`abandoned, this`report, this`wake
      ensures Valid() && k.at < |old(log)| && log == S.Discharge(old(log), k.at, n, abandon)
      ensures a == S.Advance(old(log), log)
    {
      StageDischarge(k, n, abandon);
      a := Conclude(old(log));
    }

    /** Discharges references of a ticket; null and retired tickets change nothing. */
    method Discharge(k: Node?<P>, n: nat, abandon: bool) returns (a: Option<P>)
      requires Valid() && (k != null ==> k in issued)
      modifies this`head, this`tail, this`nodes, this`spine, this`kept, this`log, spine, this`base
      modifies this`pending, this`settled, this`abandoned, this`report, this`wake
      ensures Valid()
      ensures k == null ==> log == old(log)
      ensures k != null ==> k.at < |old(log)| && log == S.Discharge(old(log), k.at, n, abandon)
      ensures a == S.Advance(old(log), log)
    {
      if k == null || k.done {
        a := None;
      } else {
        a := DischargeTicket(k, n, abandon);
      }
    }

    /** Releases every blocked admission and refuses the next ones; what is outstanding stays. */
    method Close()
      requires Valid()
      modifies this`closed, this`wake
      ensures Valid() && closed && log == old(log)
      ensures forall w :: w in waits ==> w.0 < wake
    {
      if !closed {
        closed, wake := true, wake + 1;
      }
    }

    /** The list is never longer than twice the outstanding weight. */
    lemma NodesBounded()
      requires Valid()
      ensures nodes <= 2 * pending
    {
      S.ListBound(log, kept, Counters());
    }

    /** The counters account for every unit of weight that was ever admitted. */
    lemma WeightConserved()
      requires Valid()
      ensures admitted == settled + abandoned + pending
      ensures pending > budget ==> S.Tracked(log[base..]) == 1
    {
      S.SteadyWeights(log, kept, Counters(), budget, report);
    }
  }
}
