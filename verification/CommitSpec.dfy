/**
 The two-phase commit as a protocol: sinks that stage records mint committables, one durable
 checkpoint carries them, and only then are they published and their records settled.
 */
module CommitSpec {
  import opened Records

  type Node = nat
  type CheckpointID = nat
  type Artifact = nat

  datatype Committable = Committable(handle: Artifact, checkpoint: CheckpointID, node: Node)

  datatype CommitAnswer = Committed | AlreadyCommitted | RetryLater | DeadLetter | Aborted | OutOfRange

  datatype CommitOutcome = CommitOutcome(handle: Artifact, disposition: CommitAnswer)

  type Held = map<Node, seq<RecordID>>
  type Awaiting = map<CheckpointID, Held>
  type Pending = map<CheckpointID, seq<Committable>>

  // ---- records a sink accepted and has not made durable ------------------------------------------

  function Get(d: Held, node: Node): seq<RecordID> { if node in d then d[node] else [] }

  function Hold(d: Held, node: Node, recs: seq<RecordID>): Held {
    if recs == [] then d else d[node := Get(d, node) + recs]
  }

  function Remaining(d: Held, node: Node): Held { d - {node} }

  /** Back at the front, ahead of anything that arrived since. */
  function Return(d: Held, node: Node, recs: seq<RecordID>): Held {
    if recs == [] then d else d[node := recs + Get(d, node)]
  }

  // ---- records a committable is responsible for --------------------------------------------------

  function At(aw: Awaiting, k: CheckpointID, node: Node): seq<RecordID> {
    if k in aw then Get(aw[k], node) else []
  }

  function Await(aw: Awaiting, k: CheckpointID, node: Node, recs: seq<RecordID>): Awaiting {
    if recs == [] then aw
    else aw[k := Hold(if k in aw then aw[k] else map[], node, recs)]
  }

  /** What the node awaits at checkpoint k or any lower one, oldest first. */
  function Released(aw: Awaiting, k: CheckpointID, node: Node): seq<RecordID> {
    if k == 0 then At(aw, 0, node) else Released(aw, k - 1, node) + At(aw, k, node)
  }

  /** Those entries gone, and no checkpoint left with nothing under it. */
  function Release(aw: Awaiting, k: CheckpointID, node: Node): Awaiting {
    map j | j in aw && (j > k || aw[j] - {node} != map[]) :: if j > k then aw[j] else aw[j] - {node}
  }

  // ---- committables not yet confirmed ------------------------------------------------------------

  function Minted(p: Pending, k: CheckpointID): seq<Committable> { if k in p then p[k] else [] }

  function Stage(p: Pending, k: CheckpointID, cs: seq<Committable>): Pending {
    if cs == [] then p else p[k := Minted(p, k) + cs]
  }

  function Without(cs: seq<Committable>, node: Node): seq<Committable> {
    if cs == [] then []
    else
      var init, c := Without(cs[..|cs| - 1], node), cs[|cs| - 1];
      if c.node != node then init + [c] else init
  }

  /** The node's committables at checkpoint k and every lower one are dropped. */
  function Confirm(p: Pending, k: CheckpointID, node: Node): Pending {
    map j | j in p && (j > k || Without(p[j], node) != []) :: if j > k then p[j] else Without(p[j], node)
  }

  /** All that is pending up to checkpoint k, newest last. */
  function Offer(p: Pending, k: CheckpointID): seq<Committable> {
    if k == 0 then Minted(p, 0) else Offer(p, k - 1) + Minted(p, k)
  }

  function Of(cs: seq<Committable>, node: Node): seq<Committable> {
    if cs == [] then []
    else
      var init, c := Of(cs[..|cs| - 1], node), cs[|cs| - 1];
      if c.node == node then init + [c] else init
  }

  // ---- a sink's answers ----------------------------------------------------------------------------

  /** The last answer for each handle counts. */
  function Answers(outs: seq<CommitOutcome>): map<Artifact, CommitAnswer> {
    if outs == [] then map[]
    else Answers(outs[..|outs| - 1])[outs[|outs| - 1].handle := outs[|outs| - 1].disposition]
  }

  predicate Succeeds(d: CommitAnswer) { d == Committed || d == AlreadyCommitted }

  predicate Refuses(d: CommitAnswer) { d == DeadLetter || d == OutOfRange }

  function Confirmed(sent: seq<Committable>, a: map<Artifact, CommitAnswer>): seq<Committable> {
    if sent == [] then []
    else
      var init, c := Confirmed(sent[..|sent| - 1], a), sent[|sent| - 1];
      if c.handle in a && Succeeds(a[c.handle]) then init + [c] else init
  }

  /** The answers stop the pipeline: a refusal, or a rollback with nothing confirmed beside it. */
  predicate Stops(sent: seq<Committable>, a: map<Artifact, CommitAnswer>) {
    || (exists c :: c in sent && c.handle in a && Refuses(a[c.handle]))
    || (Confirmed(sent, a) == [] && exists c :: c in sent && c.handle in a && a[c.handle] == Aborted)
  }

  function High(id: CheckpointID, cs: seq<Committable>): CheckpointID {
    if cs == [] then id
    else
      var h, c := High(id, cs[..|cs| - 1]), cs[|cs| - 1].checkpoint;
      if c > h then c else h
  }

  // ---- the protocol --------------------------------------------------------------------------------

  /** Where one flush cycle is. */
  datatype Phase =
    | Idle
    | Preparing(todo: seq<Node>, minted: seq<Committable>)
    | Staged
    | Publishing(offer: seq<Committable>, nodes: set<Node>)

  /**
   `durable` is the checkpoint in the store. `accepted` and `settled` are history: everything a sink
   took and everything settled for it in this run. `orphans` are the places whose committables a
   failed preparation dropped.
   */
  datatype State = State(
    committers: seq<Node>, id: CheckpointID, pending: Pending, deferred: Held, awaiting: Awaiting, phase: Phase,
    durable: Pending, durableId: CheckpointID,
    accepted: Held, settled: Held, orphans: set<(CheckpointID, Node)>)

  datatype Prepared = Failed | Answered(handles: seq<Artifact>)

  /** A flush that failed, or what it could not make durable: records to resend, and records to wait for. */
  datatype Flushed = FlushFailed | Reported(failed: seq<RecordID>, deferred: seq<RecordID>) {
    function NotDurable(): set<RecordID>
      requires Reported?
    {
      (set r | r in failed) + (set r | r in deferred)
    }
  }

  datatype Published = CommitFailed | Outcomes(outs: seq<CommitOutcome>)

  datatype Step =
    | Accept(node: Node, recs: seq<RecordID>)
    | FlushSink(node: Node, flush: Flushed)
    | Begin
    | Prepare(prepared: Prepared)
    | StageAll
    | Skip
    | Persist(ok: bool)
    | Publish(node: Node, published: Published)
    | Finish
    | Crash

  function Start(committers: seq<Node>): State {
    State(committers, 0, map[], map[], map[], Idle, map[], 0, map[], map[], {})
  }

  function Stamp(handles: seq<Artifact>, id: CheckpointID, node: Node): seq<Committable> {
    seq(|handles|, i requires 0 <= i < |handles| => Committable(handles[i], id, node))
  }

  function Durable(recs: seq<RecordID>, notDurable: set<RecordID>, yes: bool): seq<RecordID> {
    if recs == [] then []
    else
      var init, r := Durable(recs[..|recs| - 1], notDurable, yes), recs[|recs| - 1];
      if (r !in notDurable) == yes then init + [r] else init
  }

  function Nodes(cs: seq<Committable>): set<Node> { set c | c in cs :: c.node }

  predicate Enabled(s: State, step: Step) {
    match step
    case Accept(_, _) => true
    case FlushSink(node, _) => node !in s.committers
    case Begin => s.phase.Idle?
    case Prepare(_) => s.phase.Preparing? && s.phase.todo != []
    case StageAll => s.phase.Preparing? && s.phase.todo == []
    case Skip => s.phase.Staged? && s.pending == map[]
    case Persist(_) => s.phase.Staged?
    case Publish(node, _) => s.phase.Publishing? && node in s.phase.nodes
    case Finish => s.phase.Publishing? && s.phase.nodes == {}
    case Crash => true
  }

  function DoFlush(s: State, node: Node, flush: Flushed): State {
    if flush.FlushFailed? then s
    else
      var held := Get(s.deferred, node);
      s.(deferred := Return(Remaining(s.deferred, node), node, Durable(held, flush.NotDurable(), false)),
         settled := Hold(s.settled, node, Durable(held, flush.NotDurable(), true)))
  }

  /** One sink prepares. A failure gives up the checkpoint, and with it what others minted for it. */
  function DoPrepare(s: State, prepared: Prepared): State
    requires s.phase.Preparing? && s.phase.todo != []
  {
    var node, rest := s.phase.todo[0], s.phase.todo[1..];
    if prepared.Failed? then
      s.(phase := Idle, orphans := s.orphans + set n | n in Nodes(s.phase.minted) :: (s.id, n))
    else if prepared.handles == [] then
      s.(phase := Preparing(rest, s.phase.minted))
    else Mints(s, node, rest, s.phase.minted + Stamp(prepared.handles, s.id, node))
  }

  /** What the sink held is now its committables' responsibility. */
  function Mints(s: State, node: Node, rest: seq<Node>, minted: seq<Committable>): State {
    s.(phase := Preparing(rest, minted),
       deferred := Remaining(s.deferred, node),
       awaiting := Await(s.awaiting, s.id, node, Get(s.deferred, node)))
  }

  /** Published, therefore durable, therefore settled: everything the node awaits up to the highest id. */
  function Conclude(s: State, node: Node, confirmed: seq<Committable>): State {
    if confirmed == [] then s
    else
      var high := High(s.id, confirmed);
      s.(awaiting := Release(s.awaiting, high, node),
         settled := Hold(s.settled, node, Released(s.awaiting, high, node)),
         pending := Confirm(s.pending, high, node))
  }

  /** One sink publishes what it was offered. */
  function DoPublish(s: State, node: Node, published: Published): State
    requires s.phase.Publishing?
  {
    var sent := Of(s.phase.offer, node);
    if published.CommitFailed? || Stops(sent, Answers(published.outs)) then s.(phase := Idle)
    else
      var s := s.(phase := s.phase.(nodes := s.phase.nodes - {node}));
      Conclude(s, node, Confirmed(sent, Answers(published.outs)))
  }

  function Next(s: State, step: Step): State
    requires Enabled(s, step)
  {
    match step
    case Accept(node, recs) =>
      s.(deferred := Hold(s.deferred, node, recs), accepted := Hold(s.accepted, node, recs))
    case FlushSink(node, flush) => DoFlush(s, node, flush)
    case Begin => s.(id := s.id + 1, phase := Preparing(s.committers, []))
    case Prepare(prepared) => DoPrepare(s, prepared)
    case StageAll => s.(pending := Stage(s.pending, s.id, s.phase.minted), phase := Staged)
    case Skip => s.(phase := Idle)
    case Persist(ok) =>
      if !ok then s.(phase := Idle)
      else
        var offer := Offer(s.pending, s.id);
        s.(durable := s.pending, durableId := s.id, phase := Publishing(offer, Nodes(offer)))
    case Publish(node, published) => DoPublish(s, node, published)
    case Finish => s.(phase := Idle)
    case Crash =>
      s.(id := s.durableId, pending := map[], deferred := map[], awaiting := map[], phase := Idle,
         accepted := map[], settled := map[], orphans := {})
  }

  predicate AllEnabled(s: State, steps: seq<Step>)
    decreases |steps|, 0
  {
    steps == [] || (AllEnabled(s, steps[..|steps| - 1]) && Enabled(Run(s, steps[..|steps| - 1]), steps[|steps| - 1]))
  }

  function Run(s: State, steps: seq<Step>): State
    requires AllEnabled(s, steps)
    decreases |steps|, 1
  {
    if steps == [] then s else Next(Run(s, steps[..|steps| - 1]), steps[|steps| - 1])
  }
}
