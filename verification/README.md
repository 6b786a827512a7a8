# Canal: the progress core, modelled and proved

Canal moves records from sources to sinks and keeps one promise: a source is told to advance only
past records that have reached an end, and the position it is told is already stored. This project
models the code that keeps that promise and proves what it keeps, over every run.

| part | files | what is modelled |
|---|---|---|
| tracker | TrackerSpec, Tracker | the linked list of admissions of one lane, its counters, merging of idle positions, waiting for room |
| ledger | Records, LedgerSpec, LedgerInv, LedgerRuns, LedgerOffers, LedgerAcks, LedgerWithheld, LedgerFence, LedgerTickets, LedgerEpochs, LedgerLeaks, LedgerSafe, LedgerAnswers, Ledger, TrackedLane | admission, outcomes, offers for flushing, acknowledgements, revocation, retirement |
| commit | CommitSpec, CommitInv, CommitEarly, Commit | deferred durability and the two-phase commit of a checkpoint |
| pipeline | PipelineSpec, PipelineLanes, Pipeline, PipelineLoss, PipelineLeak, Delivery, DeliveryEarly, DeliveryFates | sources, reads, the flush cycle, crashes and restarts; then the same with the commit protocol driving the outcomes |
| lane table | LaneTableSpec, LaneTable, LaneGates, LaneWatch, LaneMissed, LaneCtl | the rows of the lanes, their writes under versions, gates between lane groups, the supervisor that waits for changes |
| write loop | WriteLoop, WriteJson | writing a set of records with retries until each has an end; what an encoding that fails does to it |
| formats | Utf8, Json, JsonValues, JsonOrder, JsonReader, JsonEscapes, Framing | strings, values and newline framing of a request, and a reader of what is written |
| the rest | Graph, Lanes, Counting, Wrappers | the cycle check of a spec; partitioning of lanes and their id slices; counting |

Each stateful part has two layers. The specification is a set of functions on values, and the
theorems are about every sequence of its steps. The classes (`Trackers.Tracker`, `Ledgers.Ledger`,
`TrackedLanes.TrackedLane`, `Commits.*`, `LaneCtls.LaneCtl`, `WriteLoop.Writer`, `Graph.Search`,
`Lanes.IdSpace`) update fields in place, with the loops the code has, and every method is proved to
take the state exactly where the specification takes it.

Runs are unbounded sequences. A crash may come between any two moves, a store write may fail, a
sink may answer anything its type allows, tickets may be stale or repeated, and map iteration takes
any order (the order is a parameter of the step).

## What the theorems assume

- A call of the ledger, of the tracker and of the store is one step; that is what their mutexes
  and the store's transaction give.
- One goroutine admits to a lane at a time, and one flush cycle runs at a time.
- One sink bears a record's progress: a record has one reference.
- Group and record ids are fresh. `Lanes.IdSpace.NextRecordID` proves this of the allocators while no
  lane has used up its slice.
- A pipeline counts a source's records from one in the order the source produces them. After a
  restart the source resumes after the stored cursor.
- `PipelineLoss.NothingSkipped` alone: a lane that lost a batch is not read again before a restart.
  `PipelineLoss.SafeUnlessLost` and `Delivery.StoredIsDelivered` do without it.
- `CommitInv.ReleasedIsConfirmed` and `DeliveryEarly.StoredIsPublished`: one committing sink, which
  confirms the newest committable it was offered whenever it confirms any.
  `Delivery.StoredIsDelivered` does without it, and names what was settled early as such.
- `LedgerEpochs.OfferedAboveFence` alone: at the revocation no unresolved admission above the
  watermark can publish a later one at or below the epoch. `RisingEpochsShelter` proves this of every
  run in which epochs did not decrease up to then, and `LedgerLeaks.ShelterIsExact` that it is the
  exact condition for a lane whose records are all in flight.
- `LedgerSafe.LastSafeWaits` alone: no group id is used twice in flight, and an unsafe position comes only
  while no safe one waits beyond the prefix. `LedgerSafe.SkipIsExact` does without it.
- `LaneWatch.NoLostAnnouncement` alone: each lane is always announced with one ordering.
  `LaneWatch.MissedIsUnheard` does without it.
- The lane table: this worker is the only one that writes its rows, and nothing is admitted to a
  lane once its finish was asked for (`GateHolds`, `FinishedIsDrained`).

## Findings

Where the code does not keep a property it states, the model follows the code, and a lemma gives
the input.

- **Reading on after a dropped batch loses it.** When the lane table changes, the read groups are
  cancelled and rebuilt in the same run (`internal/engine/read.go:174-183`). An abandoned read's
  batches are dropped (`:359-361`); an admission that waits for room on the cancelled context
  returns without failing the run (`:566`, `:589-591`), and the other lanes' batches of that call
  are never presented (`:390-392`). The comment at `:153-162` says the records are read again; but
  the source has moved on and the lane is read further, so the next safe position takes the stored
  cursor past them. `PipelineLeak.ReadingOnLoses` is that run, move by move. The exact condition,
  over every run, is `PipelineLoss.SafeUnlessLost`; the one a caller can check is the hypothesis of
  `PipelineLoss.NothingSkipped`.
- **Any confirmation settles everything.** The highest confirmed checkpoint starts from the current
  one (`internal/engine/commit.go:251`), so confirming any committable settles all the sink's
  records: `CommitInv.AnyConfirmationReleasesAll`. `CommitEarly.SettledUnpublished` is a run that
  settles a record whose committable was told to wait and forgets the committable. Nothing is settled
  early if and only if every sink that confirms anything confirms a checkpoint at or above all it
  awaits: `DeliveryEarly.NothingEarly`.
- **A failed registration loses an announcement.** The new lanes are in the store and the table before
  every lane of the call is registered with the ledger, and a refusal returns without closing the
  channel (`internal/engine/runtime.go:331-357`); the ledger refuses a known lane whose ordering
  changed. `LaneMissed.FailedRegistrationMisses` gives the four steps from any quiet state,
  `LaneMissed.AnnouncementLost` a run from a restart. That is the only way to miss a lane:
  `LaneWatch.MissedIsUnheard`; and `LaneWatch.NoLostAnnouncement` is the condition a caller can check.
- **A safe position can be passed over.** The stated rule is that the last safe position at or before the
  resolved prefix is committed (`internal/ledger/ledger.go:607-608`, `internal/ledger/doc.go:21`,
  `docs/architecture.md:5324`); the code looks only at the position where an advance ends (`:609`). When a
  batch with an unsafe position is resolved before the one with the safe position ahead of it, the advance
  passes both and nothing is offered: `LedgerSafe.SafePassedOver` is that run. `LedgerSafe.SkipIsExact`
  gives the exact condition on the lane, and `LedgerSafe.LastSafeWaits` the one a source can keep: it
  produces an unsafe position only while no safe one is outstanding.
- **Two committing sinks.** If a later one fails to prepare, the records of an earlier one await a
  commit with no committable pending: `CommitInv.FailedPreparationOrphans`, for any two sinks. With
  one committing sink it cannot happen: `CommitInv.AwaitingIsPending`.
- **A decreasing epoch leaks through the fence.** `LedgerEpochs.DecreasingEpochLeaks`; the condition
  under which nothing leaks is `LedgerEpochs.OfferedAboveFence`, and `LedgerLeaks.ShelterIsExact` says
  it is exact.
- **A finish rewinds the cursor's epoch.** A cursor flush writes the epoch to the row and not to the
  view (`internal/engine/runtime.go:627`, `:644-647`), so the finish that follows stores the old
  one: `LaneTable.FinishRewindsCursorEpoch`. Cursor, finish and version do agree:
  `LaneTable.ViewAgreesWithStore`.
- **The node a cycle report names need not be on the cycle** (`internal/engine/graph.go:169-174`); its
  inputs lead into one. `Graph.ReportedOffCycle` is such a graph, and no sink is ever on one:
  `Graph.UntakenOffCycle`.
- **One value that cannot be encoded fails every record of its write**
  (`internal/engine/write.go:145-153`), where the comment speaks of that value alone.
  `WriteJson.WriteValues` says exactly when, and `WriteJson.NeighbourFaults` gives the records.
- **A lane that uses up its id slice issues its neighbour's ids** (`internal/engine/read.go:72-75`):
  `Lanes.SlicesMeet`.

## Model

| member | source | states |
|---|---|---|
| `TrackerSpec.RunSpec` | internal/ledger/tracker.go:270-298 | The reported prefix is the longest initial run of resolved admissions: all in it are resolved, the one behind it is not. |
| `TrackerSpec.Conservation` | internal/ledger/tracker.go:325-329 | Admitted weight is settled, abandoned or outstanding, and in only one of them, after any history. |
| `TrackerSpec.ReportedIsRunEnd` | internal/ledger/tracker.go:103-298 | After any sequence of calls, stale and repeated tickets included, the last advance reported is the end of the longest resolved run, and outstanding weight exceeds the budget only while a single batch is outstanding. |
| `TrackerSpec.KeptBound` | internal/ledger/tracker.go:173-206 | With merged idle positions, what stays on the list is at most twice the outstanding weight. |
| `TrackerSpec.RefusedWhenFull` | internal/ledger/tracker.go:103-169 | A weight is refused exactly when some admission is outstanding and the weight of all from there on, with the new one, exceeds the budget: an oversized batch enters an empty lane, an exact fit enters. |
| `TrackerSpec.ReleaseCounts` | internal/ledger/tracker.go:226-266 | A ticket whose entry is outstanding loses exactly the references released, is resolved by the last of them, and changes nothing else of its entry. |
| `TrackerSpec.ReleasesAdd` | internal/ledger/tracker.go:226-266 | Releases one after another, stale ones included, have the effect of one release of their sum. |
| `Trackers.Tracker.TryTrack` | internal/ledger/tracker.go:143-169 | Admits exactly when the tracker is open and there is room or nothing outstanding; the log gains one entry, a refusal changes nothing. |
| `Trackers.Tracker.TrackLap` | internal/ledger/tracker.go:103-139 | One lap of the waiting form: closed, admitted or told to wait, each exactly when the log says so; whoever waits never misses a wake-up, which is part of the invariant every method keeps. |
| `Trackers.Tracker.TrackResolved` | internal/ledger/tracker.go:173-206 | An idle position, merged into an idle tail or not, has the effect of one entry in the log, and the advance is the one the log defines: merging cannot be observed. |
| `Trackers.Tracker.Discharge` | internal/ledger/tracker.go:226-298 | Release and abandonment of any ticket, null and retired ones included, over the linked list equal the discharge of its entry in the log, with the advance the log defines. |
| `Trackers.Tracker.Close` | internal/ledger/tracker.go:340-349 | Every waiter's channel is closed, and what is outstanding stays. |
| `Trackers.Tracker.NodesBounded` | internal/ledger/tracker.go:173-206 | The list is never longer than twice the pending weight. |
| `Trackers.Tracker.WeightConserved` | internal/ledger/tracker.go:325-329 | The counters account for all weight ever admitted; pending exceeds the budget only for a single batch. |
| `LedgerRuns.OfferedOverRuns` | internal/ledger/ledger.go:297-652 | Over every run, each record of each batch admitted at or before an offered position has been given an outcome since its admission. |
| `LedgerRuns.ExecKeeps` | internal/ledger/ledger.go:297-831 | Every call keeps the ledger's invariant: groups count their outcomes exactly, positions ascend, books balance, acknowledgements are in order. |
| `LedgerOffers.StepOffer` | internal/ledger/ledger.go:545-652 | No call shortens a lane's resolved prefix, and a position newly waiting to be flushed belongs to an admission the prefix had not yet passed. |
| `LedgerSafe.LastSafeWaits` | internal/ledger/ledger.go:600-612 | Over every run of a lane never revoked whose source admits an unsafe position only while no safe one is outstanding, the last position that has waited for a flush is the last safe one of the resolved prefix. |
| `LedgerSafe.SkipIsExact` | internal/ledger/ledger.go:600-612 | For every run that kept the rule so far, with the lane's records all in flight: no outcomes in any order break it if and only if there is no unsafe position, where the prefix may come to end, behind a safe one beyond the prefix. |
| `LedgerSafe.SafePassedOver` | internal/ledger/ledger.go:600-612 | A run after which everything is resolved, a safe position is in the prefix, and nothing has ever waited for a flush. |
| `LedgerAnswers.AdmitAnswers` | internal/ledger/ledger.go:297-464 | The answer to every batch, by the lane's own fields: which are refused, shed, made to wait or taken in; exactly two of the policies shed. |
| `LedgerAnswers.HandleKept` | internal/ledger/ledger.go:337-349 | A record is given a handle exactly when it came with one; of several, the last. |
| `LedgerAnswers.OutcomeSorts` | internal/ledger/ledger.go:499-552 | An outcome puts the record's handle with the landed or the abandoned ones by its disposition, and an admission counts as abandoned only by its last outcome. |
| `LedgerAnswers.CommittedSends` | internal/ledger/ledger.go:659-717 | In whatever order the lanes are visited, a durable position of a prefix lane sends exactly one acknowledgement with all that was due, unless the lane was told its last or is held back, and leaves nothing due. |
| `LedgerAnswers.EmitSends` | internal/ledger/ledger.go:791-831 | The same for a discrete lane with handles of either kind. |
| `LedgerAnswers.FinishIsTold` | internal/ledger/ledger.go:659-740 | In every reachable state, after a finish the next acknowledgement of a durable position of a prefix lane says it is the lane's last exactly when no group of it is open. |
| `LedgerAnswers.RevokeFences` | internal/ledger/ledger.go:885-913 | A revocation fences the epoch the lane is held under, those below it and epoch one, and no other. |
| `LedgerAnswers.RetiredWhenDrained` | internal/ledger/ledger.go:751-787 | In every reachable state a retirement is granted at once exactly when no group of the lane is open; a marked lane is handed out exactly when that has come true, and once. |
| `LedgerAnswers.OfferedExactly` | internal/ledger/ledger.go:626-652 | A waiting position is offered exactly when the lane is not held back and it is newer than the durable one, by the order of admission and, where both have a place in it, by the connector's. |
| `LedgerAnswers.OffersMoveOn` | internal/ledger/ledger.go:626-717 | Over every run, whatever is offered after a position became durable is newer than it in both orders. |
| `LedgerAcks.RecordsConserved` | internal/ledger/ledger.go:545-717 | Over every run, each record read is shed, in an open group, waiting for an acknowledgement, acknowledged or withheld, and in one of these only. |
| `LedgerAcks.HandlesConserved` | internal/ledger/ledger.go:545-597 | Over every run and for every handle: waiting, landed or abandoned; and each landed or abandoned one is in its group, with the lane, acknowledged as what it was, or lost to a fence. |
| `LedgerAcks.HandleAckedOnce` | internal/ledger/ledger.go:791-831 | A handle given to one record is acknowledged at most once, and only as what became of it. |
| `LedgerAcks.AbandonedConserved` | internal/ledger/ledger.go:499-717 | Over every run, the records shed and those whose outcome was to be abandoned, counted from the outcomes, are reported by an acknowledgement, due in the next, in an open group, or unreported behind a fence or the final one. |
| `LedgerAcks.FinalAckIsLast` | internal/ledger/ledger.go:659-717 | At most one acknowledgement of a lane says it is finished, and it is the lane's last. |
| `LedgerAcks.FinalAckIsDrained` | internal/ledger/ledger.go:659-717 | Whatever step sends the final acknowledgement, the lane has no group open. |
| `LedgerWithheld.NothingWithheld` | internal/ledger/ledger.go:885-913 | A lane never revoked and never sent its final acknowledgement withholds no record, has lost no handle, and leaves no abandoned record unreported. |
| `LedgerTickets.EachGroupCountedOnce` | internal/ledger/ledger.go:545-831 | Over every run, what an acknowledgement counts are admissions wholly settled, each once, and no two acknowledgements of a lane count the same one. |
| `LedgerFence.RevokedStaysFenced` | internal/ledger/ledger.go:183-191 | Over every run, an acknowledgement sent for a lane after its revocation under epoch e carries an epoch above e, and its record count is the weight of the admissions it lists, all made above e. |
| `LedgerTickets.RevokedAcksCountLaterGroups` | internal/ledger/ledger.go:885-913 | The same, with those admissions distinct, wholly settled, and counted by no other acknowledgement of the lane. |
| `LedgerEpochs.OfferedAboveFence` | internal/ledger/ledger.go:626-652 | For every fenced epoch e: if at a revocation no unresolved admission above the watermark can publish a later safe one at or below e, every position offered from then on belongs to an admission above e, whatever happens to epochs afterwards. |
| `LedgerLeaks.UnshelteredLeaks` | internal/ledger/ledger.go:545-620 | The other half: where one can, beyond what is committed and with the lane's records all in flight, outcomes exist after which that position is offered. |
| `LedgerLeaks.ShelterIsExact` | internal/ledger/ledger.go:885-913 | Over every run that revokes a lane whose records are all in flight, the condition holds if and only if no sequence of calls gets a position offered that was not admitted above e. |
| `LedgerEpochs.RisingEpochsShelter` | internal/ledger/ledger.go:283-289 | That condition holds after every run in which no epoch decreased. |
| `LedgerEpochs.DecreasingEpochLeaks` | internal/ledger/ledger.go:283-289 | Without it a position admitted under the revoked epoch is offered: the run. |
| `Ledgers.Ledger.Admit` | internal/ledger/ledger.go:297-464 | The class's admission, with its order of checks, shedding and idle batches, is the specification's, error included. |
| `Ledgers.Ledger.Settle` | internal/ledger/ledger.go:499-620 | Outcomes one after another, then publication of the advances, equal the specification's; what they count and sort is `AbandonedConserved` and `OutcomeSorts`. |
| `Ledgers.Ledger.Flushable` | internal/ledger/ledger.go:626-652 | The loop over lanes, in any order, hands out and clears what the specification does. |
| `Ledgers.Ledger.Committed` | internal/ledger/ledger.go:659-717 | The loop over the committed positions, visiting each once, sends and records what the specification does. |
| `Ledgers.Ledger.EmitDiscrete` | internal/ledger/ledger.go:791-831 | The same for the acknowledgements of discrete lanes. |
| `Ledgers.Ledger.Revoke` | internal/ledger/ledger.go:885-913 | Fences the lane and reports exactly the records of its open groups. |
| `Ledgers.Ledger.RequestRetire` | internal/ledger/ledger.go:751-773 | Retires at once, or marks the lane, as the specification says. |
| `Ledgers.Ledger.Retirable` | internal/ledger/ledger.go:777-787 | Hands out each marked lane that has drained, once. |
| `TrackedLanes.TrackedLane.Idle` | internal/ledger/ledger.go:297-464 | On a lane held as a linked list, an idle batch is the specification's step on the lane whose log is the tracker's. |
| `TrackedLanes.TrackedLane.Track` | internal/ledger/ledger.go:297-464 | A batch enters the lane exactly when the log admits it; its ticket is the place it took. |
| `TrackedLanes.TrackedLane.Outcome` | internal/ledger/ledger.go:545-597 | An outcome discharges the group's ticket on the list as the specification does on the log, with the same advance. |
| `CommitInv.EachRecordInOnePlace` | internal/engine/durability.go:89-138 | Over every run, a record a sink accepted is deferred, awaiting a commit or settled exactly as many times as it was accepted. |
| `CommitInv.CommitsAreDurable` | internal/engine/run.go:980-1043 | Over every run, whatever is handed to Commit is in the checkpoint that is durable by then. |
| `CommitInv.AwaitingIsPending` | internal/engine/commit.go:91-133 | Over every run, what awaits a commit has a committable pending under the same checkpoint, unless a preparation failed at another sink. |
| `CommitInv.ReleasedIsConfirmed` | internal/engine/commit.go:172-262 | Over every run with one sink that keeps its contract, a commit settles records only under checkpoints at or below one it confirmed, each with a durable committable. |
| `CommitInv.SettlesOnlyPublished` | internal/engine/commit.go:172-262 | Over every run, a commit settles a record, or changes what awaits or is pending, only if the last word of its sink on a committable sent to it is committed or already committed, and on none a refusal. |
| `CommitInv.WordsDecide` | internal/engine/commit.go:172-240 | What stops a commit and what it confirms, by the last disposition the sink gave for each handle sent. |
| `CommitInv.AnyConfirmationReleasesAll` | internal/engine/commit.go:245-262 | Any confirmation settles all a sink awaits, under whatever checkpoint. |
| `CommitEarly.EarlyExactly` | internal/engine/commit.go:245-262 | A commit settles a record before its sink vouched for its checkpoint if and only if the node awaits a checkpoint above the highest it confirmed. |
| `CommitEarly.NewestIsPrompt` | internal/engine/commit.go:172-262 | A lone committing sink that confirms its newest committable leaves nothing above the highest it confirmed. |
| `CommitEarly.SettledUnpublished` | internal/engine/commit.go:245-262 | A run that settles a record whose committable was told to wait, and leaves nothing pending for it. |
| `CommitInv.FailedPreparationOrphans` | internal/engine/commit.go:91-133 | With any two committing sinks a failed preparation leaves records awaiting with nothing pending. |
| `Commits.Deferred.FlushOne` | internal/engine/durability.go:272-325 | A flush hands out exactly the held records it neither failed nor deferred and returns the others to the front, both in order; a failed one returns all; no record is lost or doubled. |
| `Commits.AwaitingCommit.Release` | internal/engine/commit.go:379-394 | In whatever order the table is visited, exactly the node's records at or below the checkpoint come out, and every other entry stays. |
| `Commits.Checkpointer.Offerable` | internal/engine/commit.go:306-314 | Every pending committable and no other, ascending by checkpoint. |
| `Commits.Classify` | internal/engine/commit.go:172-240 | A refusal anywhere in the batch, or a rollback with nothing confirmed, stops it before anything is acted on; otherwise exactly those answered committed or already committed come out, in order. |
| `Commits.ApplyOutcomes` | internal/engine/commit.go:172-262 | It fails exactly on a refusal, or a rollback with nothing published; it settles a record or touches a table only if the sink's last word on something sent is that it is published; tables and settled records are then the specification's. |
| `Pipeline.StoredIsDecided` | internal/engine/run.go:980-1043 | Over every run with crashes, every record at or before a stored cursor has reached its end or was lost, whatever batches are thrown away. |
| `Pipeline.ToldIsStored` | internal/engine/run.go:1036-1040 | Over every run with crashes, no source is told to advance past the stored cursor. |
| `Pipeline.CursorsAdvance` | internal/engine/commit.go:472-517 | Over every run, no move takes a stored cursor back. |
| `PipelineLoss.SafeUnlessLost` | internal/engine/read.go:359-392 | Over every run with crashes, the pipeline is safe if and only if no lost record lies at or before its lane's stored cursor. |
| `PipelineLoss.NothingSkipped` | internal/engine/read.go:150-183 | Over every run with crashes in which no lane that lost a batch is read again before a restart, every record at or before a stored cursor has reached its end, and no source was told more than is stored. |
| `PipelineLeak.ReadingOnLoses` | internal/engine/read.go:174-183 | Reading on in the same run loses the record: the run through the pipeline's own moves, all enabled. |
| `Delivery.HeldBeyondCursor` | internal/engine/commit.go:525-528 | Over every run with crashes, whatever a sink holds, deferred or behind a committable, lies beyond the stored cursor. |
| `Delivery.CursorBehindCommittables` | internal/engine/commit.go:525-528 | Over every run with crashes, a record a sink took lies beyond the stored cursor, so a restart reads it again, unless it was flushed durable, its sink confirmed its checkpoint or a later one, or a commit settled it early. |
| `Delivery.StoredIsDelivered` | internal/engine/run.go:980-1043 | Over every run with crashes, each record at or before a stored cursor was passed over or shed, abandoned, written, flushed durable, behind a checkpoint at or below one its sink confirmed, or settled early; or was lost before anyone took it in. |
| `DeliveryFates.FlushedWasDurable` | internal/engine/durability.go:272-325 | Whatever the state, a record comes to count as flushed only by a flush of the node that held it, whose answer neither failed nor deferred it. |
| `DeliveryFates.PublishedWasConfirmed` | internal/engine/commit.go:172-262 | Whatever the state, a record comes to count as published only when its sink's last word on a committable at or above its checkpoint is committed or already committed. |
| `DeliveryEarly.NothingEarly` | internal/engine/commit.go:245-262 | Over every run with crashes, nothing is settled early if and only if every sink that confirms anything confirms a checkpoint at or above all its node awaits. |
| `DeliveryEarly.StoredIsPublished` | internal/engine/run.go:980-1043 | Over every run with crashes and one committing sink that confirms its newest committable, nothing is settled early, so each record at or before a stored cursor was passed over, shed, abandoned, written, flushed, published or lost before anyone took it in. |
| `LaneTable.ViewAgreesWithStore` | internal/engine/runtime.go:589-695 | Over every interleaving, between writes the view has exactly the stored rows with their cursors, finishes and versions. |
| `LaneTable.OwnWritesNeverStale` | internal/engine/runtime.go:654-695 | Over every interleaving, a write of a lone worker presents the stored version, so it is refused only when the store is down. |
| `LaneTable.FinishNeverLost` | internal/engine/runtime.go:488-509 | Over every interleaving, a durable finish survives whatever is written over its row. |
| `LaneTable.FinishRewindsCursorEpoch` | internal/engine/runtime.go:589-652 | A finish after a cursor flush stores the epoch of before the flush. |
| `LaneGates.GateHolds` | internal/engine/runtime.go:364-452 | Over every interleaving, a lane offered for reading waits for no group of which a known lane has records in flight or a finish that is not durable. |
| `LaneGates.FinishedIsDrained` | internal/engine/runtime.go:475-509 | Over every interleaving, a durable finish belongs to a lane with no group open in the ledger. |
| `LaneWatch.MissedIsUnheard` | internal/engine/read.go:205-258 | Over every interleaving, a lane the supervisor misses while its channel is open and nobody is about to close it was put into the table, since it took the channel, by an announcer that then failed to register a lane. |
| `LaneWatch.NoLostAnnouncement` | internal/engine/read.go:205-258 | Over every interleaving in which each lane is always announced with one ordering, a supervisor that misses a lane holds a closed channel, or somebody is about to close it and will not fail. |
| `LaneMissed.FailedRegistrationMisses` | internal/engine/runtime.go:331-357 | From any state with a waiting supervisor and no writer, announcing a known lane with another ordering beside a new lane leaves the new one stored, offered and unread, with nobody to close the channel. |
| `LaneMissed.AnnouncementLost` | internal/engine/runtime.go:331-357 | The same as a run of nine steps from a restart. |
| `LaneCtls.LaneCtl.Assigned` | internal/engine/runtime.go:364-398 | In announce order, exactly the lanes that are unfinished, have no finish pending, and start after groups all of whose lanes finished durably; they are the offer `GateHolds` is about. |
| `LaneCtls.LaneCtl.GatedOn` | internal/engine/runtime.go:434-452 | Exactly the groups it names of which some lane has not durably finished, in the order it names them; none exactly when the lane is not gated. |
| `LaneCtls.LaneCtl.Announce` | internal/engine/runtime.go:275-360 | New rows in one write if there are any, then the view, then every lane registered with the ledger up to the first refusal, then the wake-up: store, table, ledger and channel end where the state machine's steps take them, failures included. On success every new lane is stored and seen with nothing read, known ones are as before, and each is registered with its ordering. |
| `LaneCtls.LaneCtl.Commit` | internal/engine/runtime.go:557-652 | It succeeds exactly when no position is of a known lane, or the store is up with every such lane at the version seen; then each of them is stored and seen at its position with the rest of its row, else nothing changes, and no other lane is touched. |
| `LaneCtls.LaneCtl.Retire` | internal/engine/runtime.go:488-509 | It succeeds exactly for a known lane at the version seen while the store is up; the finish is durable before the pending mark goes and waiters wake; a failed write or an unknown lane changes nothing and wakes nobody. |
| `LaneCtls.LaneCtl.Finish` | internal/engine/runtime.go:475-509 | An unsettled lane leaves the read set with its row untouched; a settled one is durably finished, or nothing changes. |
| `WriteLoop.Writer.WriteSet` | internal/engine/write.go:32-136 | Without an error each record landed once or was abandoned once, and in no case both or either twice; what landed did so in a call whose answer adds up and does not name it, what was abandoned was dead-lettered or dropped as the policy says; when every fault spends an attempt, the loop ends within the policy's attempts. |
| `WriteLoop.Writer.WriteOnce` | internal/engine/write.go:141-209 | A failed encoding calls no sink and gives every record its fault; otherwise it succeeds exactly when the sink's answers add up, and then a record is at fault exactly when an answer names it, with the last kind named, or the call failed, and lands otherwise. |
| `WriteJson.BuildRequest` | internal/engine/run.go:832-868 | A request's body splits into its records' encodings; a fault is reported, for all of them, exactly when some value has none. |
| `WriteJson.WriteValues` | internal/engine/write.go:145-153 | The sink is not called, and every record of the write is at fault, exactly when some value of it has no encoding. |
| `WriteJson.NeighbourFaults` | internal/engine/write.go:145-153 | A record that could be written alone is at fault beside one that cannot. |
| `WriteLoop.RetrySpends` | internal/engine/retry.go:82-163 | A counted fault is retried only while attempts are left, and spends one. |
| `Json.AppendString` | pkg/codec/json.go:193-253 | Copying unescaped stretches whole appends the literal escaped one character at a time. |
| `Json.LiteralReadsBack` | pkg/codec/json.go:193-253 | Every byte string's literal reads back, by an independent reader, as its text with ill-formed bytes replaced. |
| `JsonEscapes.LiteralSeparates` | pkg/codec/json.go:187-253 | No literal has U+2028 or U+2029 as it is, whatever bytes it was made from. |
| `JsonEscapes.ShortestEscape` | pkg/codec/json.go:193-228 | An ASCII character is escaped exactly when it is a control character, a quote or a backslash, and by a letter exactly when the format has one for it. |
| `Utf8.DecodeEncode` | pkg/codec/json.go:193-253 | Decoding undoes encoding for every code point, whatever follows. |
| `Utf8.EncodeDecode` | pkg/codec/json.go:193-253 | A decoded code point encodes to exactly the bytes it took. |
| `JsonValues.AppendValue` | pkg/codec/json.go:31-105 | The bytes of a value tree, those `EncodedReadsBack` reads, or nothing when some part of it has no JSON. |
| `JsonValues.OrderSorted` | pkg/codec/json.go:108-137 | A map is written in the order of its keys, the one `LessSpec` describes. |
| `JsonValues.LessSpec` | pkg/codec/json.go:108-137 | Keys are ordered by their first differing byte, a prefix before what it begins. |
| `JsonValues.OrderAll` | pkg/codec/json.go:108-137 | A field is written exactly when it has a value. |
| `JsonOrder.SameFieldsSameBytes` | pkg/codec/json.go:108-137 | Two maps with the same fields, iterated in whatever order, have the same bytes. |
| `JsonReader.EncodedReadsBack` | pkg/codec/json.go:31-137 | Every value tree that has an encoding reads back from it, by an independent reader, as the tree it is: integers by value, absent fields omitted, fields by key, ill-formed bytes replaced, nothing left over. |
| `JsonReader.IntegerReadsBack` | pkg/codec/json.go:44-45 | Every integer's numeral, read by sign and decimal places with no superfluous zero, is that integer. |
| `Framing.EncodedClean` | pkg/codec/json.go:31-137 | No byte of a value's encoding is below the space character, so none is a newline. |
| `Framing.BuildBody` | internal/engine/run.go:832-850 | A request's body, record by record over one buffer, or nothing when a record has no JSON. |
| `Framing.BodySplits` | pkg/codec/codec.go:166-172 | Every body splits on newlines into exactly the records that went in. |
| `Graph.CheckAcyclic` | internal/engine/graph.go:137-177 | Reports a node if and only if the graph has a cycle, and then the first, in spec order, whose inputs lead into one. |
| `Graph.CollectedTakes` | internal/engine/graph.go:137-150 | The edges searched are exactly the inputs the spec's nodes name, those of a repeated id together. |
| `Graph.ReportedOffCycle` | internal/engine/graph.go:169-174 | A graph whose reported node lies on no cycle. |
| `Graph.UntakenOffCycle` | internal/engine/graph.go:169-174 | A node nobody takes as input is on no cycle. |
| `Graph.Search.Visit` | internal/engine/graph.go:151-167 | A visit finishes its node after all its inputs and leaves the path as it was, or the walk is caught in a cycle. |
| `Lanes.PartitionLanes` | internal/engine/read.go:290-302 | Consecutive groups, none empty, sizes differing by at most one, together the whole list. |
| `Lanes.IdSpace.AllocatorFor` | internal/engine/read.go:79-91 | A slice no other lane has, or a refusal exactly when all are taken. |
| `Lanes.IdSpace.NextRecordID` | pkg/record/batch.go:49-59 | The lane's next number, whatever its slice; while every lane is within its own and this one has not used its up, it is new in the whole run. |
| `Lanes.SlicesMeet` | internal/engine/read.go:72-75 | Beyond its slice a lane's ids are those of the next lane. |

## Left out

- Ledgers.Ledger: keeps each lane's tracker as its log; `TrackedLanes.TrackedLane` shows one lane over the linked list, for the steps that touch the tracker.
- Close, Drain, the reaper and leak reports of the ledger (`internal/ledger/ledger.go:1006-1125`): they end a run or observe it, and move no position.
- Expand and Register of the ledger (`internal/ledger/ledger.go:468-493`): fan-out raises a group's references after admission; here a group's references are its records.
- LedgerLeaks.ShelterIsExact: asks that every reference of the lane waits for a record in flight; a batch that named a record id twice never completes, and what waits behind it is never published.
- WriteLoop.Writer.WriteSet: the time limits of a retry policy are an arbitrary clock, and waits between rounds are a count of waits the context survives.
- LaneCtls.LaneCtl.Finish: the mark and the wake-up are one step; between them no method of the class runs.
- The wrap-around of 64-bit counters other than ids, ages and stall diagnosis, per-node attribution of abandoned records.
- The error text of routes, dead-letter records themselves and backoff durations.
- Leases, the coordinator, the write-ahead log and the database stores: the store is a map with versions and atomic batches.
- Recovery of stale committables (`internal/engine/commit.go:529-694`): after a crash the commit model begins afresh and the sink decides.
- Forgetting and seeding lanes, lane queries, and the admission verdict shown to sources.
- Formatting of floats, decimals, byte strings and times in JSON, which appear as their text; encoders other than JSON and framers other than newline.
- Reachability, capabilities and the other spec diagnostics, schemas, transforms, HTTP, command line, metrics and status.
- The log lines and counters by which the shedding policies tell themselves apart (`internal/engine/read.go:580-588`).
