/** Identities and values that travel between the source, the ledger and the sinks. */
module Records {
  import opened Wrappers

  type LaneID = nat
  type RecordID = nat
  type GroupID = nat
  type Handle = nat

  /**
   Where a source is. `seqno` is assigned by the ledger at admission; `token` is what a restart
   resumes from; `order` ranks the connector's own order-preserving encoding when it supplies one.
   */
  datatype Position = Position(seqno: nat, token: int, order: Option<int>, safe: bool)

  /** Three-way comparison, defined only when both positions carry an encoding. */
  function Compare(p: Position, q: Position): Option<int> {
    if p.order.None? || q.order.None? then None
    else Some(if p.order.value < q.order.value then -1 else if p.order.value == q.order.value then 0 else 1)
  }

  /** A record as the ledger sees it, admitted from a source with one reference. */
  datatype Rec = Rec(id: RecordID, lane: LaneID, handle: Option<Handle>)

  datatype Batch = Batch(lane: LaneID, group: GroupID, records: seq<Rec>, pos: Position)

  datatype Disposition = Delivered | Duplicate | Abandoned

  datatype Outcome = Outcome(record: RecordID, disposition: Disposition)

  datatype Ordering = Prefix | Discrete

  datatype WhenFull = Block | DropNewest | Reject | Overflow

  /**
   What the source is told. The last field is history and reaches nobody: the tickets of the
   admissions whose records the acknowledgement counts.
   */
  datatype Ack = Ack(lane: LaneID, epoch: nat, through: Option<Position>,
                     handles: seq<Handle>, abandonedHandles: seq<Handle>,
                     records: nat, abandoned: nat, laneFinished: bool, tickets: seq<nat>)
}
