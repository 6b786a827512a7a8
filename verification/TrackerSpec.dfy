/**
 The reference model of the tracker: an append-only log with one entry per admission, in
 admission order, and nothing else. Every number the tracker reports is defined here from the
 log alone; Tracker.dfy shows that the linked list, its counters and its merged idle nodes
 compute the same answers.
 */
module TrackerSpec {
  import opened Wrappers

  /** One admission. An entry is resolved once no reference is left. */
  datatype Entry<+P> = Entry(payload: P, weight: nat, refs: nat, abandoned: bool) {
    predicate Resolved() { refs == 0 }

    /** A position that carried no records: complete the moment it arrived. */
    predicate Idle() { weight == 0 && refs == 0 }

    predicate WellFormed() { weight == 0 ==> refs == 0 && !abandoned }
  }

  type Log<+P> = seq<Entry<P>>

  predicate WellFormedLog<P>(log: Log<P>) {
    forall i :: 0 <= i < |log| ==> log[i].WellFormed()
  }

  /** Length of the longest initial run of resolved entries. */
  function Run<P>(log: Log<P>): (r: nat)
    ensures r <= |log|
  {
    RunFrom(log, 0)
  }

  function RunFrom<P>(log: Log<P>, k: nat): (r: nat)
    requires k <= |log|
    ensures k <= r <= |log|
    decreases |log| - k
  {
    if k == |log| || !log[k].Resolved() then k else RunFrom(log, k + 1)
  }

  /** What makes it the longest: everything in it is resolved and the entry behind it is not. */
  predicate IsRun<P>(log: Log<P>, r: nat) {
    && r <= |log|
    && (forall i :: 0 <= i < r ==> log[i].Resolved())
    && (r < |log| ==> !log[r].Resolved())
  }

  lemma {:induction false} RunFromSpec<P>(log: Log<P>, k: nat)
    requires k <= |log|
    ensures var r := RunFrom(log, k);
            && (forall i :: k <= i < r ==> log[i].Resolved())
            && (r < |log| ==> !log[r].Resolved())
    decreases |log| - k
  {
    if k < |log| && log[k].Resolved() {
      RunFromSpec(log, k + 1);
    }
  }

  lemma RunSpec<P>(log: Log<P>)
    ensures IsRun(log, Run(log))
  {
    RunFromSpec(log, 0);
  }

  /** There is only one longest run. */
  lemma RunUnique<P>(log: Log<P>, r: nat)
    requires IsRun(log, r)
    ensures Run(log) == r
  {
    RunSpec(log);
  }

  // ---- weights -------------------------------------------------------------------------------

  function Weight<P>(s: Log<P>): (w: nat) {
    if s == [] then 0 else s[0].weight + Weight(s[1..])
  }

  function AbandonedWeight<P>(s: Log<P>): (w: nat) {
    if s == [] then 0 else (if s[0].abandoned then s[0].weight else 0) + AbandonedWeight(s[1..])
  }

  /** Entries that carry records. */
  function Tracked<P>(s: Log<P>): (n: nat)
    ensures n <= |s|
  {
    if s == [] then 0 else (if s[0].weight > 0 then 1 else 0) + Tracked(s[1..])
  }

  function Admitted<P>(log: Log<P>): nat { Weight(log) }

  function Outstanding<P>(log: Log<P>): nat { Weight(log[Run(log)..]) }

  function Abandoned<P>(log: Log<P>): nat { AbandonedWeight(log[..Run(log)]) }

  /** Weight that left the run without being abandoned. */
  function Settled<P>(log: Log<P>): (w: int) { Weight(log[..Run(log)]) - Abandoned(log) }

  lemma {:induction false} WeightAppend<P>(s: Log<P>, t: Log<P>)
    ensures Weight(s + t) == Weight(s) + Weight(t)
    ensures AbandonedWeight(s + t) == AbandonedWeight(s) + AbandonedWeight(t)
    ensures Tracked(s + t) == Tracked(s) + Tracked(t)
  {
    if s == [] {
      assert s + t == t;
    } else {
      assert (s + t)[1..] == s[1..] + t;
      WeightAppend(s[1..], t);
    }
  }

  lemma {:induction false} AbandonedAtMostWeight<P>(s: Log<P>)
    ensures AbandonedWeight(s) <= Weight(s)
  {
    if s == [] {
    } else {
      AbandonedAtMostWeight(s[1..]);
    }
  }

  lemma WeightSingle<P>(e: Entry<P>)
    ensures Weight([e]) == e.weight
    ensures AbandonedWeight([e]) == if e.abandoned then e.weight else 0
    ensures Tracked([e]) == if e.weight > 0 then 1 else 0
  {
    assert [e][1..] == [];
  }

  /** Idle entries weigh nothing, wherever they stand. */
  lemma {:induction false} IdleWeightless<P>(s: Log<P>)
    requires forall i :: 0 <= i < |s| ==> s[i].Idle()
    ensures Weight(s) == 0 && AbandonedWeight(s) == 0 && Tracked(s) == 0
  {
    if s == [] {
    } else {
      IdleWeightless(s[1..]);
    }
  }

  /** Every unit of admitted weight is settled, abandoned or outstanding, and in only one of them. */
  lemma Conservation<P>(log: Log<P>)
    ensures Admitted(log) == Settled(log) + Abandoned(log) + Outstanding(log)
    ensures Settled(log) >= 0
  {
    var r := Run(log);
    assert log == log[..r] + log[r..];
    WeightAppend(log[..r], log[r..]);
    AbandonedAtMostWeight(log[..r]);
  }

  // ---- operations ----------------------------------------------------------------------------

  function AtLeastOne(n: nat): (r: nat) { if n == 0 then 1 else n }

  /** The admission rule: room in the budget, or nothing outstanding at all. */
  predicate Admits<P>(log: Log<P>, budget: nat, weight: nat) {
    Run(log) == |log| || Outstanding(log) + AtLeastOne(weight) <= budget
  }

  /** Entry r is the first still waited for, and what stands from there on leaves no room for the weight. */
  predicate FullAt<P>(log: Log<P>, budget: nat, weight: nat, r: nat) {
    && r < |log| && !log[r].Resolved() && (forall i :: 0 <= i < r ==> log[i].Resolved())
    && Weight(log[r..]) + (if weight < 1 then 1 else weight) > budget
  }

  ghost predicate Full<P>(log: Log<P>, budget: nat, weight: nat) {
    exists r: nat :: FullAt(log, budget, weight, r)
  }

  /** A weight is refused exactly when something is outstanding and the two together exceed the budget. */
  lemma RefusedWhenFull<P>(log: Log<P>, budget: nat, weight: nat)
    ensures !Admits(log, budget, weight) <==> Full(log, budget, weight)
  {
    RunSpec(log);
    if !Admits(log, budget, weight) {
      assert FullAt(log, budget, weight, Run(log));
    } else if Full(log, budget, weight) {
      var r: nat :| FullAt(log, budget, weight, r);
      RunUnique(log, r);
    }
  }

  function Track<P>(log: Log<P>, payload: P, weight: nat, refs: nat): (l: Log<P>) {
    log + [Entry(payload, AtLeastOne(weight), AtLeastOne(refs), false)]
  }

  function TrackResolved<P>(log: Log<P>, payload: P): (l: Log<P>) {
    log + [Entry(payload, 0, 0, false)]
  }

  function DischargeEntry<P>(e: Entry<P>, n: nat, abandon: bool): (f: Entry<P>)
    ensures e.weight > 0 ==> f.WellFormed()
  {
    if abandon then e.(refs := 0, abandoned := true)
    else if n >= e.refs then e.(refs := 0)
    else e.(refs := e.refs - n)
  }

  /**
   A ticket is the index of its admission. One whose entry has already left is stale, and an
   idle entry never had one.
   */
  function Discharge<P>(log: Log<P>, i: nat, n: nat, abandon: bool): (l: Log<P>)
    requires i < |log|
    ensures |l| == |log|
    ensures forall j :: 0 <= j < |log| && j != i ==> l[j] == log[j]
  {
    if i < Run(log) || log[i].weight == 0 then log else log[i := DischargeEntry(log[i], n, abandon)]
  }

  /** What a call reports: the payload the run now ends at, when the run grew. */
  function Advance<P>(before: Log<P>, after: Log<P>): (a: Option<P>) {
    if Run(after) > Run(before) then Some(after[Run(after) - 1].payload) else None
  }

  // ---- what the operations do to the run -------------------------------------------------------

  lemma RunTrack<P>(log: Log<P>, payload: P, weight: nat, refs: nat)
    ensures Run(Track(log, payload, weight, refs)) == Run(log)
    ensures Outstanding(Track(log, payload, weight, refs)) == Outstanding(log) + AtLeastOne(weight)
    ensures Abandoned(Track(log, payload, weight, refs)) == Abandoned(log)
    ensures Settled(Track(log, payload, weight, refs)) == Settled(log)
    ensures Admitted(Track(log, payload, weight, refs)) == Admitted(log) + AtLeastOne(weight)
    ensures Tracked(Track(log, payload, weight, refs)[Run(log)..]) == Tracked(log[Run(log)..]) + 1
  {
    RunSpec(log);
    var e := Entry(payload, AtLeastOne(weight), AtLeastOne(refs), false);
    var l := log + [e];
    var r := Run(log);
    RunUnique(l, r);
    assert l[..r] == log[..r];
    assert l[r..] == log[r..] + [e];
    WeightAppend(log, [e]);
    WeightAppend(log[r..], [e]);
    WeightSingle(e);
  }

  lemma RunTrackResolved<P>(log: Log<P>, payload: P)
    ensures var l := TrackResolved(log, payload);
            && Run(l) == (if Run(log) == |log| then |log| + 1 else Run(log))
            && Outstanding(l) == Outstanding(log)
            && Abandoned(l) == Abandoned(log)
            && Settled(l) == Settled(log)
            && Admitted(l) == Admitted(log)
            && Tracked(l[Run(l)..]) == Tracked(log[Run(log)..])
  {
    RunSpec(log);
    var e := Entry(payload, 0, 0, false);
    var l := log + [e];
    var r := Run(log);
    WeightSingle(e);
    WeightAppend(log, [e]);
    if r == |log| {
      RunUnique(l, r + 1);
      assert l[..r + 1] == log[..r] + [e];
      WeightAppend(log[..r], [e]);
      assert l[r + 1..] == [] && log[r..] == [];
    } else {
      RunUnique(l, r);
      assert l[..r] == log[..r];
      assert l[r..] == log[r..] + [e];
      WeightAppend(log[r..], [e]);
    }
  }

  /** Discharging never shortens the run, and lengthens it only at the head of what is outstanding. */
  lemma RunDischarge<P>(log: Log<P>, i: nat, n: nat, abandon: bool)
    requires i < |log|
    ensures var l := Discharge(log, i, n, abandon);
            && Run(l) >= Run(log)
            && (Run(l) > Run(log) <==> i == Run(log) && log[i].weight > 0 && l[i].Resolved())
  {
    RunSpec(log);
    RunSpec(Discharge(log, i, n, abandon));
    var l := Discharge(log, i, n, abandon);
    if i != Run(log) || log[i].weight == 0 || !l[i].Resolved() {
      RunUnique(l, Run(log));
    }
  }

  /** A ticket whose entry is outstanding loses exactly the references released, and is resolved by the last. */
  lemma ReleaseCounts<P>(log: Log<P>, i: nat, n: nat)
    requires i < |log| && log[i].refs > 0 && log[i].weight > 0
    ensures var l := Discharge(log, i, n, false);
            && l[i].refs == (if n <= log[i].refs then log[i].refs - n else 0)
            && l[i].payload == log[i].payload && l[i].weight == log[i].weight && l[i].abandoned == log[i].abandoned
            && (l[i].Resolved() <==> n >= log[i].refs)
  {
    RunSpec(log);
  }

  /** Abandoning resolves it at once; a ticket whose entry has no reference left is stale. */
  lemma AbandonResolves<P>(log: Log<P>, i: nat, n: nat, m: nat, abandon: bool)
    requires WellFormedLog(log) && i < |log|
    ensures var l := Discharge(log, i, n, true);
            && l[i].Resolved() && (log[i].refs > 0 ==> l[i].abandoned)
            && (i < Run(l) ==> Discharge(l, i, m, abandon) == l)
  {
    RunSpec(log);
  }

  /** References released one after another count as released together. */
  lemma ReleasesAdd<P>(log: Log<P>, i: nat, n: nat, m: nat)
    requires WellFormedLog(log) && i < |log|
    ensures Discharge(Discharge(log, i, n, false), i, m, false) == Discharge(log, i, n + m, false)
  {
    var l := Discharge(log, i, n, false);
    RunSpec(log);
    RunSpec(l);
    RunDischarge(log, i, n, false);
  }

  /** A weight that did not fit still does not fit once more is outstanding. */
  lemma RefusalsKept<P>(log: Log<P>, l: Log<P>, budget: nat)
    requires Run(l) < |l| || Run(log) == |log|
    requires Outstanding(l) >= Outstanding(log)
    ensures forall w :: !Admits(log, budget, w) ==> !Admits(l, budget, w)
  {}

  // ---- bounded backpressure ------------------------------------------------------------------

  /** Outstanding weight is over budget only while a single batch of records is outstanding. */
  predicate Bounded<P>(log: Log<P>, budget: nat) {
    Outstanding(log) <= budget || Tracked(log[Run(log)..]) == 1
  }

  lemma BoundedTrack<P>(log: Log<P>, budget: nat, payload: P, weight: nat, refs: nat)
    requires Bounded(log, budget) && Admits(log, budget, weight)
    ensures Bounded(Track(log, payload, weight, refs), budget)
  {
    RunTrack(log, payload, weight, refs);
    if Run(log) == |log| {
      assert log[Run(log)..] == [];
    }
  }

  lemma BoundedTrackResolved<P>(log: Log<P>, budget: nat, payload: P)
    requires Bounded(log, budget)
    ensures Bounded(TrackResolved(log, payload), budget)
  {
    RunTrackResolved(log, payload);
  }

  lemma BoundedDischarge<P>(log: Log<P>, budget: nat, i: nat, n: nat, abandon: bool)
    requires i < |log| && Bounded(log, budget)
    ensures Bounded(Discharge(log, i, n, abandon), budget)
    ensures Outstanding(Discharge(log, i, n, abandon)) <= Outstanding(log)
  {
    var l := Discharge(log, i, n, abandon);
    RunDischarge(log, i, n, abandon);
    SameWeights(log, l);
    var r, r' := Run(log), Run(l);
    assert log[r..] == log[r..r'] + log[r'..];
    WeightAppend(log[r..r'], log[r'..]);
    SameWeights(log[r'..], l[r'..]);
    TrackedZero(l[r'..]);
  }

  lemma {:induction false} SameWeights<P>(s: Log<P>, t: Log<P>)
    requires |s| == |t|
    requires forall i :: 0 <= i < |s| ==> s[i].weight == t[i].weight
    ensures Weight(s) == Weight(t) && Tracked(s) == Tracked(t)
  {
    if s == [] {
    } else {
      SameWeights(s[1..], t[1..]);
    }
  }

  lemma {:induction false} TrackedZero<P>(s: Log<P>)
    ensures Tracked(s) == 0 <==> Weight(s) == 0
  {
    if s == [] {
    } else {
      TrackedZero(s[1..]);
    }
  }

  // ---- whole runs -----------------------------------------------------------------------------

  /** Any call a client can make, with the tickets it holds, stale or not. */
  datatype Op<+P> =
    | OpTrack(payload: P, weight: nat, refs: nat)
    | OpTrackResolved(payload: P)
    | OpDischarge(ticket: nat, n: nat, abandon: bool)

  datatype State<+P> = State(log: Log<P>, reported: Option<P>)

  function Report<P>(st: State<P>, l: Log<P>): (s: State<P>) {
    State(l, match Advance(st.log, l) case Some(p) => Some(p) case None => st.reported)
  }

  function Step<P>(st: State<P>, budget: nat, op: Op<P>): (s: State<P>) {
    match op
    case OpTrack(p, w, refs) => if Admits(st.log, budget, w) then Report(st, Track(st.log, p, w, refs)) else st
    case OpTrackResolved(p) => Report(st, TrackResolved(st.log, p))
    case OpDischarge(i, n, abandon) => if i < |st.log| then Report(st, Discharge(st.log, i, n, abandon)) else st
  }

  function Exec<P>(budget: nat, ops: seq<Op<P>>): (s: State<P>) {
    if ops == [] then State([], None) else Step(Exec(budget, ops[..|ops| - 1]), budget, ops[|ops| - 1])
  }

  predicate ReportsRunEnd<P(==)>(s: State<P>) {
    s.reported == if Run(s.log) == 0 then None else Some(s.log[Run(s.log) - 1].payload)
  }

  /** A step that leaves the entries of the old run alone keeps the report right. */
  lemma ReportKeeps<P>(st: State<P>, l: Log<P>)
    requires ReportsRunEnd(st) && Run(l) >= Run(st.log)
    requires Run(l) == Run(st.log) > 0 ==> l[Run(l) - 1] == st.log[Run(l) - 1]
    ensures ReportsRunEnd(Report(st, l))
  {}

  lemma StepKeeps<P>(st: State<P>, budget: nat, op: Op<P>)
    requires ReportsRunEnd(st) && Bounded(st.log, budget)
    ensures ReportsRunEnd(Step(st, budget, op)) && Bounded(Step(st, budget, op).log, budget)
  {
    match op
    case OpTrack(p, w, refs) =>
      if Admits(st.log, budget, w) {
        RunTrack(st.log, p, w, refs);
        BoundedTrack(st.log, budget, p, w, refs);
        ReportKeeps(st, Track(st.log, p, w, refs));
      }
    case OpTrackResolved(p) =>
      RunTrackResolved(st.log, p);
      BoundedTrackResolved(st.log, budget, p);
      ReportKeeps(st, TrackResolved(st.log, p));
    case OpDischarge(i, n, abandon) =>
      if i < |st.log| {
        RunDischarge(st.log, i, n, abandon);
        BoundedDischarge(st.log, budget, i, n, abandon);
        ReportKeeps(st, Discharge(st.log, i, n, abandon));
      }
  }

  /**
   After any sequence of calls, stale and repeated tickets included, the last advance that was
   reported names the last entry of the longest resolved initial run, and outstanding weight is
   over budget only while a single batch of records is outstanding.
   */
  lemma {:induction false} ReportedIsRunEnd<P>(budget: nat, ops: seq<Op<P>>)
    ensures ReportsRunEnd(Exec(budget, ops)) && Bounded(Exec(budget, ops).log, budget)
  {
    if ops == [] {
    } else {
      ReportedIsRunEnd(budget, ops[..|ops| - 1]);
      StepKeeps(Exec(budget, ops[..|ops| - 1]), budget, ops[|ops| - 1]);
    }
  }

  // ---- coalescing ------------------------------------------------------------------------------

  /** An idle entry followed by another idle entry need not be kept. */
  predicate Kept<P>(log: Log<P>, k: nat)
    requires k < |log|
  {
    !(log[k].Idle() && k + 1 < |log| && log[k + 1].Idle())
  }

  /** Indices at or after k that survive coalescing, in order. */
  function KeptFrom<P>(log: Log<P>, k: nat): (s: seq<nat>)
    requires k <= |log|
    decreases |log| - k
  {
    if k == |log| then [] else
      (if Kept(log, k) then [k] else []) + KeptFrom(log, k + 1)
  }

  /** The last entry always survives. */
  lemma {:induction false} KeptShape<P>(log: Log<P>, k: nat)
    requires k <= |log|
    ensures var s := KeptFrom(log, k);
            && (forall j :: 0 <= j < |s| ==> k <= s[j] < |log|)
            && (s == [] <==> k == |log|)
            && (s != [] ==> s[|s| - 1] == |log| - 1)
    decreases |log| - k
  {
    if k >= |log| {
    } else {
      KeptShape(log, k + 1);
      var t := KeptFrom(log, k + 1);
      if Kept(log, k) {
        var s := [k] + t;
        assert KeptFrom(log, k) == s;
        assert t != [] ==> s[|s| - 1] == t[|t| - 1];
      } else {
        assert KeptFrom(log, k) == t;
      }
    }
  }

  lemma {:induction false} KeptAscending<P>(log: Log<P>, k: nat, s: seq<nat>)
    requires k <= |log| && s == KeptFrom(log, k)
    ensures forall i, j :: 0 <= i < j < |s| ==> s[i] < s[j]
    decreases |log| - k
  {
    if k == |log| {
    } else {
      var t := KeptFrom(log, k + 1);
      KeptAscending(log, k + 1, t);
      if Kept(log, k) {
        KeptShape(log, k + 1);
        Prepend(k, t, s);
      }
    }
  }

  /** Two survivors are different entries, at or after the place the search began. */
  lemma KeptApart<P>(log: Log<P>, k: nat, s: seq<nat>, i: nat, j: nat)
    requires k <= |log| && s == KeptFrom(log, k) && i < |s| && j < |s|
    ensures k <= s[i] < |log| && (i != j ==> s[i] != s[j])
  {
    KeptShape(log, k);
    KeptAscending(log, k, s);
  }

  lemma Prepend(k: nat, t: seq<nat>, s: seq<nat>)
    requires (forall j :: 0 <= j < |t| ==> k < t[j]) && s == [k] + t
    requires forall i, j :: 0 <= i < j < |t| ==> t[i] < t[j]
    ensures forall i, j :: 0 <= i < j < |s| ==> s[i] < s[j]
  {
    forall i, j | 0 <= i < j < |s|
      ensures s[i] < s[j]
    {
      assert s[j] == t[j - 1];
      assert i > 0 ==> s[i] == t[i - 1];
    }
  }

  /** Everything skipped in front of the first kept entry is idle, and so is that entry. */
  lemma {:induction false} KeptHead<P>(log: Log<P>, k: nat)
    requires k < |log|
    ensures KeptFrom(log, k) != []
    ensures var i := KeptFrom(log, k)[0];
            && k <= i < |log|
            && KeptFrom(log, k) == [i] + KeptFrom(log, i + 1)
            && (forall j :: k <= j < i ==> log[j].Idle())
            && (i > k ==> log[i].Idle())
    decreases |log| - k
  {
    var t := KeptFrom(log, k + 1);
    if Kept(log, k) {
      assert KeptFrom(log, k) == [k] + t;
    } else {
      KeptHead(log, k + 1);
      assert KeptFrom(log, k) == t;
    }
  }

  /** Which entries survive depends only on which are idle. */
  lemma {:induction false} KeptSame<P>(s: Log<P>, t: Log<P>, k: nat)
    requires |s| == |t| && k <= |s|
    requires forall i :: k <= i < |s| ==> (s[i].Idle() <==> t[i].Idle())
    ensures KeptFrom(s, k) == KeptFrom(t, k)
    decreases |s| - k
  {
    if k >= |s| {
    } else {
      KeptSame(s, t, k + 1);
    }
  }

  /** Appending merges with an idle tail exactly when the newcomer is idle too. */
  lemma {:induction false} KeptAppend<P>(log: Log<P>, e: Entry<P>, k: nat)
    requires k <= |log|
    ensures var s := KeptFrom(log, k);
            && (k < |log| ==> s != [])
            && KeptFrom(log + [e], k) ==
              (if k < |log| && log[|log| - 1].Idle() && e.Idle() then s[..|s| - 1] else s) + [|log|]
    decreases |log| - k
  {
    var l := log + [e];
    if k == |log| {
      assert KeptFrom(l, k + 1) == [];
    } else if k + 1 == |log| {
      assert KeptFrom(log, k + 1) == [] && KeptFrom(l, k + 2) == [];
      assert KeptFrom(l, k + 1) == [k + 1];
      assert KeptFrom(log, k) == [k];
    } else {
      KeptAppend(log, e, k + 1);
      var first := if Kept(log, k) then [k] else [];
      assert Kept(l, k) <==> Kept(log, k);
      assert KeptFrom(l, k) == first + KeptFrom(l, k + 1) && KeptFrom(log, k) == first + KeptFrom(log, k + 1);
      KeptDropLast(first, KeptFrom(log, k + 1));
    }
  }

  lemma KeptDropLast(s: seq<nat>, t: seq<nat>)
    requires t != []
    ensures (s + t)[..|s + t| - 1] == s + t[..|t| - 1]
  {}

  /**
   With an unresolved entry in front, the entries kept number at most twice the outstanding
   weight: every idle one stands behind one that carries records.
   */
  lemma {:induction false} KeptBound<P>(log: Log<P>, k: nat)
    requires k <= |log| && WellFormedLog(log)
    ensures k < |log| && !log[k].Idle() ==> |KeptFrom(log, k)| <= 2 * Weight(log[k..])
    ensures |KeptFrom(log, k)| <= 2 * Weight(log[k..]) + 1
    decreases |log| - k
  {
    if k >= |log| {
    } else {
      KeptBound(log, k + 1);
      assert log[k..][1..] == log[k + 1..];
    }
  }

  // ---- what a tracker keeps --------------------------------------------------------------------

  /** The counters a tracker keeps, when it has retired the first `base` entries. */
  datatype Counts = Counts(pending: nat, admitted: nat, settled: nat, abandoned: nat)

  predicate Counted<P>(log: Log<P>, base: nat, c: Counts)
    requires base <= |log|
  {
    && c.pending == Weight(log[base..])
    && c.admitted == Weight(log)
    && c.abandoned == AbandonedWeight(log[..base])
    && c.settled == Weight(log[..base]) - AbandonedWeight(log[..base])
  }

  /** The first `base` entries are retired, and `kept` lists the others that survive. */
  predicate Retired<P>(log: Log<P>, base: nat, kept: seq<nat>, c: Counts) {
    && base <= Run(log)
    && kept == KeptFrom(log, base)
    && Counted(log, base, c)
  }

  function RetireCounts<P>(c: Counts, e: Entry<P>): (d: Counts)
    requires e.weight <= c.pending
  {
    if e.abandoned then c.(pending := c.pending - e.weight, abandoned := c.abandoned + e.weight)
    else c.(pending := c.pending - e.weight, settled := c.settled + e.weight)
  }

  lemma RetireStep<P>(log: Log<P>, base: nat, kept: seq<nat>, c: Counts)
    requires Retired(log, base, kept, c)
    requires kept != [] && kept[0] < |log| && log[kept[0]].Resolved()
    ensures base <= kept[0] && log[kept[0]].weight <= c.pending
    ensures Retired(log, kept[0] + 1, kept[1..], RetireCounts(c, log[kept[0]]))
  {
    RunSpec(log);
    KeptHead(log, base);
    RetireWeights(log, base, kept[0]);
  }

  lemma RetireWeights<P>(log: Log<P>, k: nat, i: nat)
    requires k <= i < |log|
    requires forall j :: k <= j < i ==> log[j].Idle()
    ensures Weight(log[k..]) == log[i].weight + Weight(log[i + 1..])
    ensures Weight(log[..i + 1]) == Weight(log[..k]) + log[i].weight
    ensures AbandonedWeight(log[..i + 1])
         == AbandonedWeight(log[..k]) + if log[i].abandoned then log[i].weight else 0
    ensures AbandonedWeight(log[..i + 1]) <= Weight(log[..i + 1])
    ensures AbandonedWeight(log[..k]) <= Weight(log[..k])
  {
    IdleWeightless(log[k..i]);
    WeightSingle(log[i]);
    assert log[k..] == log[k..i] + ([log[i]] + log[i + 1..]);
    WeightAppend(log[k..i], [log[i]] + log[i + 1..]);
    WeightAppend([log[i]], log[i + 1..]);
    assert log[..i + 1] == log[..k] + (log[k..i] + [log[i]]);
    WeightAppend(log[..k], log[k..i] + [log[i]]);
    WeightAppend(log[k..i], [log[i]]);
    AbandonedAtMostWeight(log[..i + 1]);
    AbandonedAtMostWeight(log[..k]);
  }

  /** With an unresolved head, or nothing left, retirement is complete. */
  lemma RetiredAll<P>(log: Log<P>, base: nat, kept: seq<nat>, c: Counts)
    requires Retired(log, base, kept, c)
    requires kept != [] ==> kept[0] < |log| && !log[kept[0]].Resolved()
    ensures Run(log) == base
  {
    RunSpec(log);
    KeptShape(log, base);
    if base < |log| {
      KeptHead(log, base);
    }
    RunUnique(log, base);
  }

  lemma TrackRetired<P>(log: Log<P>, kept: seq<nat>, c: Counts, payload: P, weight: nat, refs: nat)
    requires Retired(log, Run(log), kept, c)
    ensures var w := AtLeastOne(weight);
            Retired(Track(log, payload, weight, refs), Run(log), kept + [|log|],
                    c.(pending := c.pending + w, admitted := c.admitted + w))
  {
    var l := Track(log, payload, weight, refs);
    RunTrack(log, payload, weight, refs);
    KeptAppend(log, l[|log|], Run(log));
    assert l[..Run(log)] == log[..Run(log)];
  }

  /** The last survivor gives way to a new idle position exactly when it is idle itself. */
  function KeptIdle<P>(log: Log<P>, kept: seq<nat>): (k: seq<nat>)
  {
    var n := |kept| - 1;
    if n >= 0 && kept[n] < |log| && log[kept[n]].Idle() then kept[..n] else kept
  }

  lemma IdleRetired<P>(log: Log<P>, kept: seq<nat>, c: Counts, payload: P)
    requires Retired(log, Run(log), kept, c)
    ensures Retired(TrackResolved(log, payload), Run(log), KeptIdle(log, kept) + [|log|], c)
  {
    var l, r := TrackResolved(log, payload), Run(log);
    RunTrackResolved(log, payload);
    KeptShape(log, r);
    KeptAppend(log, l[|log|], r);
    IdleWeights(log, r, l[|log|]);
  }

  lemma IdleWeights<P>(log: Log<P>, r: nat, e: Entry<P>)
    requires r <= |log| && e.Idle()
    ensures Weight((log + [e])[r..]) == Weight(log[r..]) && Weight(log + [e]) == Weight(log)
    ensures (log + [e])[..r] == log[..r]
  {
    assert (log + [e])[r..] == log[r..] + [e];
    WeightSingle(e);
    WeightAppend(log, [e]);
    WeightAppend(log[r..], [e]);
  }

  lemma DischargeRetired<P>(log: Log<P>, kept: seq<nat>, c: Counts, i: nat, n: nat, abandon: bool)
    requires Retired(log, Run(log), kept, c) && Run(log) <= i < |log| && log[i].weight > 0
    ensures Retired(Discharge(log, i, n, abandon), Run(log), kept, c)
  {
    var l, r := Discharge(log, i, n, abandon), Run(log);
    RunDischarge(log, i, n, abandon);
    KeptSame(log, l, r);
    assert l[..r] == log[..r];
    SameWeights(log, l);
    SameWeights(log[r..], l[r..]);
  }

  /** What survives is at most twice the outstanding weight. */
  lemma ListBound<P>(log: Log<P>, kept: seq<nat>, c: Counts)
    requires WellFormedLog(log) && Retired(log, Run(log), kept, c)
    ensures |kept| <= 2 * Outstanding(log)
  {
    RunSpec(log);
    KeptBound(log, Run(log));
    KeptShape(log, Run(log));
  }

  /** Everything a tracker keeps between calls, apart from its pointers. */
  predicate Steady<P(==)>(log: Log<P>, kept: seq<nat>, c: Counts, budget: nat, report: Option<P>) {
    && Retired(log, Run(log), kept, c)
    && WellFormedLog(log)
    && Bounded(log, budget)
    && ReportsRunEnd(State(log, report))
  }

  lemma SteadyWeights<P>(log: Log<P>, kept: seq<nat>, c: Counts, budget: nat, report: Option<P>)
    requires Steady(log, kept, c, budget, report)
    ensures c.admitted == c.settled + c.abandoned + c.pending
    ensures c.pending > budget ==> Tracked(log[Run(log)..]) == 1
  {
    Conservation(log);
  }

  lemma TrackValid<P>(log: Log<P>, kept: seq<nat>, c: Counts, payload: P, weight: nat, refs: nat,
                      budget: nat, report: Option<P>)
    requires Steady(log, kept, c, budget, report) && Admits(log, budget, weight)
    ensures var l, w := Track(log, payload, weight, refs), AtLeastOne(weight);
            && Run(l) == Run(log)
            && Steady(l, kept + [|log|], c.(pending := c.pending + w, admitted := c.admitted + w), budget, report)
            && (forall w :: !Admits(log, budget, w) ==> !Admits(l, budget, w))
  {
    RunTrack(log, payload, weight, refs);
    TrackRetired(log, kept, c, payload, weight, refs);
    BoundedTrack(log, budget, payload, weight, refs);
    RefusalsKept(log, Track(log, payload, weight, refs), budget);
  }

  lemma SteadyEmpty<P>(log: Log<P>, kept: seq<nat>, c: Counts, budget: nat, report: Option<P>)
    requires |log| == |kept| == 0 && c == Counts(0, 0, 0, 0) && report == None
    ensures Run(log) == 0 && Steady(log, kept, c, budget, report)
  {}

  /** What is retired after a change that kept the old run, seen before its retirement. */
  ghost predicate Changed<P>(log: Log<P>, l: Log<P>, budget: nat) {
    && Run(l) >= Run(log)
    && WellFormedLog(l)
    && Bounded(l, budget)
    && (Run(log) > 0 ==> Run(log) <= |log| && Run(log) <= |l| && l[Run(log) - 1] == log[Run(log) - 1])
    && (Run(l) == Run(log) ==> forall w :: !Admits(log, budget, w) ==> !Admits(l, budget, w))
  }

  lemma IdleChanged<P>(log: Log<P>, budget: nat, payload: P)
    requires WellFormedLog(log) && Bounded(log, budget)
    ensures Changed(log, TrackResolved(log, payload), budget)
  {
    var l := TrackResolved(log, payload);
    RunTrackResolved(log, payload);
    BoundedTrackResolved(log, budget, payload);
    if Run(l) == Run(log) {
      RefusalsKept(log, l, budget);
    }
  }

  lemma DischargeChanged<P>(log: Log<P>, budget: nat, i: nat, n: nat, abandon: bool)
    requires WellFormedLog(log) && Bounded(log, budget) && i < |log|
    ensures Changed(log, Discharge(log, i, n, abandon), budget)
  {
    var l := Discharge(log, i, n, abandon);
    RunDischarge(log, i, n, abandon);
    BoundedDischarge(log, budget, i, n, abandon);
    if Run(l) == Run(log) {
      SameWeights(log[Run(log)..], l[Run(log)..]);
      RefusalsKept(log, l, budget);
    }
  }

  lemma AdvanceSteady<P>(log: Log<P>, l: Log<P>, kept: seq<nat>, c: Counts, budget: nat, was: Option<P>,
                         report: Option<P>)
    requires Changed(log, l, budget) && ReportsRunEnd(State(log, was))
    requires Retired(l, Run(l), kept, c)
    requires report == if Run(l) > Run(log) then Some(l[Run(l) - 1].payload) else was
    ensures Steady(l, kept, c, budget, report)
  {}
}
