# Verified model of the Toolang execution layer

Toolang runs agents whose work is recorded as a tree of Runs and Steps and published as a stream of
events. This project models the parts of that execution layer that have to be right under
concurrency, crashes, bounded memory and untrusted order, and proves what they promise.

| component | modules | main results |
|---|---|---|
| Bounded canonical stream | `StreamSpec`, `Stream` | the ring refines an unbounded log for every reader; reclaim is exact; late resume loses no event but superseded Parts; no wake-up is lost; a reader that stops has drained |
| Attachment | `ObservationSpec`, `Observation`, `ObservationTree` | what a subscription sends, replayed, replaced or started, is well formed exactly when no Run ends unbegun, with asynchronous Runs; when a replay fails; checkpoints never pass an unsent frame |
| Client reducer | `ClientSpec`, `ClientTree`, `ClientReducer`, `Client` | replacements commit whole and remove exactly the trees they speak for, the table stays ancestor-closed over every sequence of frames, the explicit-stack snapshot is a replayable permutation of it |
| Server to client | `EndToEnd` | whatever a subscription has sent, the client that follows it is only sent admissible frames and keeps an ancestor-closed table; what the one ill-formed frame does there |
| Compaction | `Compaction`, `CompactionRun` | batches tile the source through rewinds and rejects; every run ends, for a reason stated exactly; a checkpoint resumes with its summary and without repeating or losing a unit |
| File locks | `ClaimLock`, `EditLock` | mutual exclusion and no unlinked replacement over all interleavings; an optimistic read never overlaps a write |
| Store algorithms | `ModelCalls`, `History` | delta-encoded model calls rebuild exactly; tool exchanges are filtered soundly and idempotently |
| Talk loop | `Talk` | one Run per conversation cursor, no unhandled message behind the cursor, one notice per Run and only for Runs that failed, across crashes and late saves; exactly when a message can reach two Runs |
| Live tree | `Money`, `LiveSpec`, `Live` | counters account for every invocation beneath a Run, including pruned branches, and for every report exactly when none overflowed at or below it |
| Codecs and billing | `IdCodec`, `Ids`, `Flatname`, `Billing` | bijective ids that are never issued twice; reversible filenames; estimates that partition the tokens |

Objects with mutable fields are classes with a `Valid` invariant, and their methods are proved
against functions on values; protocols between processes are state machines whose steps interleave
freely. The stream's classes keep a ghost log of everything ever published, the live tree a ghost
log of everything ever invoked, and the id allocator a ghost list of everything ever issued.

## What the proofs showed about the code

* `capture_model_call` accepts a call whose Step lies before stored calls that it can spoil: a call
  continuing the preceding sequence with new messages, when a later call of that sequence is already
  stored, puts its messages in the middle of the later call, and a call that starts its own sequence
  there cuts the later one off from its head. `ModelCalls.CaptureKeepsExact` says exactly when a
  capture keeps every stored call rebuilding to what was captured, and
  `ModelCalls.LateCaptureChangesLaterCall` is a three-message instance in which it does not.
* Each admitted message goes to one Run over every history of crashes and of lost or late saves, as long
  as the loop does not forget a cursor save that is still on the wire. It forgets one when access to the
  conversation is refused, and when the Hub identity changes (`poll` clears the open save). Back with the
  conversation, it may admit a longer batch from the same cursor before the old attempt lands inside that
  batch's range; if the process then stops before it saves again, the rest of the range is read and
  admitted a second time. `Talk.DeniedSaveRepeats` is such a history, `Talk.OnceExactly` gives the exact
  condition for every history, and `Talk.MessagesOnce` holds whenever the loop forgets a save only with
  nothing of it on the wire. A save of a process that has stopped cannot do this: its lease token is
  replaced before the next loop polls.
* A failure notice goes only to a Run that failed or whose waiting broke off (`Talk.NoticesFollowFailures`).
  The converse has a gap: a resumed loop that reads a Run as still running, and then as failed when it
  closes the batch, moves the cursor past its messages without a notice (`Talk.UnseenFailure`).
* `LiveTree.note_model` raises part-way up the tree when a sum would pass the maximum amount. A Run is
  charged exactly when neither it nor a Run beneath it on the way overflows (`Live.ChargedUpTo`); the
  others keep an account that no longer covers what was reported beneath them
  (`Live.LiveTree.RunReport`). `Live.OverflowSplits` drives a tree into that state.
* A root Run canceled before its first turn is published as ended without ever having been published
  as begun. An observer attached before is then sent a RunEnd without its RunBegin, and that is the only
  way an attachment can be ill formed (`ObservationSpec.LiveWellFormed`,
  `ObservationSpec.UnstartedRunEnds`). The client stores that End: its table is no longer ancestor-closed
  and stays so, but the record hangs under nothing and no snapshot visits it (`EndToEnd.BareEnd`,
  `EndToEnd.OrphanStays`). Without such an End the table of a client that follows a subscription is
  ancestor-closed after every frame (`EndToEnd.SubscriptionKeepsClosed`).
* `LiveTree` is a tree only as long as no Run but the root is accepted without a parent
  (`Live.OneTree`). `AcceptRun` does not refuse a second one: `Live.SecondTop` drives a tree into a forest,
  where the second Run is resident and missing from the snapshot. All other results hold for the forest.
* In `StreamReader.receive` the branch that stops because `_until` has been reached is never taken:
  whenever a reader is not closed and not overflowed, its cursor is below `_until`.
* A snapshot replayed into an empty reducer is refused when an ended Run has a child Run without an
  end; `ClientReducer.SnapshotReplays` shows this, and the record budget, to be the only reasons.
* `StreamNormalizer.replay` looks up the Begins of ancestors without a guard. With whole trees loaded, as
  the store loads them, no lookup is ever missing (`Observation.LoadedNeverMissing`), and a replay stops
  only at a frame whose ancestors' Begins are unpublished, of another incarnation or later than it.

## Model

| member | source | states |
|---|---|---|
| StreamSpec.Seen | src/toolang/execution/stream.py:365-367 | the frames a reader skips are exactly those at or before its cursor, and the rest lie after it |
| StreamSpec.BoundsSound | src/toolang/execution/stream.py:208-216 | every completion boundary recorded for a Step is the position of its last Part before some StepEnd, and boundaries ascend |
| StreamSpec.BoundsComplete | src/toolang/execution/stream.py:208-216 | each Part that is followed by a StepEnd of its Step lies at or before a recorded boundary |
| StreamSpec.GoneIffDisposable | src/toolang/execution/stream.py:249-264 | the boundary bisection drops a frame if and only if it is a Part read by everyone and closed by a later StepEnd whose Part run is wholly below the read floor |
| StreamSpec.CompactKeeps | src/toolang/execution/stream.py:249-264 | compaction keeps order and exactly the frames that are not disposable |
| StreamSpec.CompactUnread | src/toolang/execution/stream.py:249-264 | compacting at the read floor changes nothing that a reader at or above it has still to read |
| StreamSpec.AppendRefines | src/toolang/execution/stream.py:82-96 | a ring that refines the log still refines it after one more event |
| StreamSpec.EvictRefines | src/toolang/execution/stream.py:229-247 | evicting the head and raising the floor to it keeps the ring a refinement of the log |
| StreamSpec.CompactRefines | src/toolang/execution/stream.py:249-264 | compaction keeps the ring a refinement of the log |
| StreamSpec.LateResume | src/toolang/execution/stream.py:173-190 | for every cursor between floor and tail, each later event is retained, or is a Part followed by a retained StepEnd of its Step |
| Stream.Publication.Append | src/toolang/execution/stream.py:82-96 | a staged event takes the next position after the tail and earlier staged events |
| Stream.CanonicalStream.Begin | src/toolang/execution/stream.py:134-146 | a publication is opened if and only if the stream is open and none is in progress |
| Stream.CanonicalStream.Abort | src/toolang/execution/stream.py:146-152 | a block that ends with an error publishes nothing |
| Stream.CanonicalStream.Commit | src/toolang/execution/stream.py:133-153 | a block that ends normally appends its staged events to the log, in order; the only readers dropped are marked overflowed; the refinement and wake invariants hold again |
| Stream.CanonicalStream.Subscribe | src/toolang/execution/stream.py:173-190 | a cursor is refused exactly when its epoch differs, it lies below the floor (gap), or beyond the tail; otherwise the reader starts there owed every retained later frame |
| Stream.CanonicalStream.Close | src/toolang/execution/stream.py:192-198 | closing keeps the log and the ring and leaves every reader woken or about to be |
| Stream.CanonicalStream.Completed | src/toolang/execution/stream.py:208-216 | the scan collects the completion boundaries of every Step |
| Stream.CanonicalStream.CompactRing | src/toolang/execution/stream.py:249-264 | the in-place pass computes the compacted ring and its byte count |
| Stream.CanonicalStream.Reclaim | src/toolang/execution/stream.py:203-247 | both budgets hold afterwards; a reader is overflowed if and only if its unread suffix alone is over budget; what is left is the shortest eviction of the ring compacted at the final read floor; surviving readers lose nothing unread |
| Stream.StreamReader.Notify | src/toolang/execution/stream.py:293-300 | a wake is scheduled unless the reader is closed, at most once at a time |
| Stream.StreamReader.Wake | src/toolang/execution/stream.py:302-305 | the scheduled callback sets the ready flag and clears the scheduled one |
| Stream.StreamReader.Overflow | src/toolang/execution/stream.py:307-311 | an overflowed reader is unregistered, marked and woken |
| Stream.StreamReader.Finish | src/toolang/execution/stream.py:313-321 | the reader stops at the tail of the first call; it closes at once if it is already there |
| Stream.StreamReader.Gather | src/toolang/execution/stream.py:362-383 | a batch is the scope-filtered image of the frames scanned, within both batch budgets and the stop position |
| Stream.StreamReader.ReceiveOnce | src/toolang/execution/stream.py:348-395 | an overflowed reader only reports it; a reader with unread frames gets a batch or overflows, on a closed stream too; a batch strictly advances the cursor within both budgets and extends what was delivered; a reader stops by itself only on a closed stream and parks only on an open one, at the tail |
| Stream.StreamReader.TakeBatch | src/toolang/execution/stream.py:361-392 | one pass over unread frames either delivers their filtered image or overflows on a single frame larger than a batch |
| Stream.TailReaderSeesLog | src/toolang/execution/stream.py:348-395 | a reader subscribed at the tail has been delivered exactly the scope-filtered log up to its cursor, over any interleaving |
| Stream.LateReaderIsOwed | src/toolang/execution/stream.py:173-190 | a reader resuming at any admissible cursor is owed every later event except Parts that a retained StepEnd supersedes |
| Stream.ClosedReaderIsDrained | src/toolang/execution/stream.py:192-198 | a reader that closed by itself has been delivered all it was owed up to where it was told to finish, or up to the tail at which the stream closed and beyond; with nothing published since, its whole feed |
| Stream.StreamReader.Leave | src/toolang/execution/stream.py:397-403 | the owner may close a reader at any time; the stream's invariant holds again |
| ClaimLock.StepKeeps | src/toolang/common/files.py:114-192 | every filesystem step of every process, including crashes, keeps the claim invariant |
| ClaimLock.RunKeeps | src/toolang/common/files.py:126-192 | the invariant holds in every state of every interleaving |
| ClaimLock.Exclusion | src/toolang/common/files.py:126-172 | at most one live process holds the claim |
| ClaimLock.UnlinkIsOwnOrDead | src/toolang/common/files.py:114-123 | a step that unlinks the path removes either its own claim or the very claim it judged dead, never a replacement |
| ClaimLock.HolderIsSafe | src/toolang/common/files.py:114-192 | no other process disturbs the claim of a holder |
| ClaimLock.StaleClaimIsReapable | src/toolang/common/files.py:175-192 | a dead claim with a free flock can be removed by a reaper of the same kernel |
| ClaimLock.FreeIsClaimable | src/toolang/common/files.py:126-172 | any idle process can take a free lock |
| ClaimLock.LeavingFrees | src/toolang/common/files.py:126-172 | a holder that leaves frees the path and its flock |
| EditLock.StepKeeps | src/toolang/common/files.py:214-258 | every step of readers and writers keeps the guard invariant |
| EditLock.RunKeeps | src/toolang/common/files.py:214-258 | the guard invariant holds in every state of every interleaving of readers and writers |
| EditLock.ReadIsClean | src/toolang/common/files.py:237-258 | a value returned by `read` never overlapped a write |
| EditLock.OverlapIsMarked | src/toolang/common/files.py:237-258 | over every run a read that overlapped a write is marked as such, up to the value it returns; `ReadIsClean` says that no marked value is returned |
| EditLock.ReadersLeaveNoGuard | src/toolang/common/files.py:237-258 | readers alone never create the guard |
| EditLock.WritersExclude | src/toolang/common/files.py:231-258 | while one writer writes, no other writes and no reader reads under the lock |
| EditLock.WriteGoesThrough | src/toolang/common/files.py:214-235 | with the lock free a writer gets through and leaves it free |
| EditLock.ReadGoesThrough | src/toolang/common/files.py:237-258 | with the lock free a read returns a clean value, without the lock where there is no guard |
| ModelCalls.CheckHeads | src/toolang/execution/store.py:3167-3180 | the batch check records, per head, the last requested Step, and refuses only when some requested chain is broken |
| ModelCalls.Expand | src/toolang/execution/store.py:3197-3255 | one pass over the Steps serves every requested call from its active baseline or finds a broken chain |
| ModelCalls.Rebuild | src/toolang/execution/store.py:3151-3255 | a batch succeeds if and only if each requested chain is whole, and then each call is the concatenation of its deltas from head to Step, independent of what else was asked for |
| ModelCalls.Reached | src/toolang/execution/store.py:3210-3236 | the running message list at a requested Step is its whole rebuilt call |
| ModelCalls.NotWhole | src/toolang/execution/store.py:3218-3231 | a Step inside a span that names another head breaks the chain |
| ModelCalls.CaptureKeepsExact | src/toolang/execution/store.py:2985-3024 | an admitted capture leaves every stored call rebuilding to what was captured if and only if no model call is stored after its Step, or the next one stored starts its own sequence, or the new call continues a sequence and adds no message to it |
| ModelCalls.AdmitExactly | src/toolang/execution/store.py:2985-3024 | a capture is admitted if and only if its templates are the metadata of the last messages and it either is a whole baseline of its own or names the head of the last model Step ranked before it; each refusal has its own exact cause |
| ModelCalls.ModelCallStore.Capture | src/toolang/execution/store.py:2973-3074 | a capture is admitted exactly as `AdmitExactly` says, in terms of the stored rows, and inserts exactly its delta |
| ModelCalls.ModelCallStore.RebuildCaptured | src/toolang/execution/store.py:3151-3255 | while the store is exact, any batch of requests returns exactly the captured messages |
| ModelCalls.LateCaptureChangesLaterCall | src/toolang/execution/store.py:3001-3024 | a three-message instance in which a late capture changes what a stored later call rebuilds to |
| Compaction.DoublingsFall | src/toolang/execution/compaction.py:550-557 | a larger scale has no more doublings left before it exceeds the budget |
| Compaction.HistoryReader.Rewind | src/toolang/execution/compaction.py:103-108 | rewinding moves back by the count, and is refused beyond the start |
| Compaction.Compactor.Truncate | src/toolang/execution/compaction.py:432-472 | shortening a unit ends, touches no other unit, and succeeds if and only if one of the shortened contents makes it fit alone |
| Compaction.Compactor.FitBatch | src/toolang/execution/compaction.py:499-507 | the batch is cut to the longest part whose request is admitted, or to one unit, shortened if need be; it fails only if no part and no shortening fits; what is given back is unread again |
| Compaction.Compactor.Fill | src/toolang/execution/compaction.py:477-498 | units are read until the end or until there is no room for the next; only a first unit without room that no shortening fits fails |
| Compaction.Compactor.NextCall | src/toolang/execution/compaction.py:474-507 | a returned request is the batch in order and fits the admission bound; none is returned only when every unit is accepted, and an error only if the first unit does not fit even shortened; a new batch leaves out the next unit only if it does not fit beside it; a pending request is returned again unchanged |
| Compaction.Compactor.ValidateSummary | src/toolang/execution/compaction.py:509-528 | a summary is usable if and only if it fits the caller and leaves room for a next batch at the calibrated scale |
| Compaction.Compactor.RetrySummary | src/toolang/execution/compaction.py:530-535 | at most two retries, each at half the target, each lowering the termination measure |
| Compaction.Compactor.Accept | src/toolang/execution/compaction.py:537-548 | accepted units grow by the batch, the scale becomes the calibrated one, and the measure falls |
| Compaction.Compactor.RaiseScale | src/toolang/execution/tokens.py:101-107 | calibration never lowers the scale; a lone unit doubles it, using up a doubling |
| Compaction.Compactor.HalveBatch | src/toolang/execution/compaction.py:561-563 | the batch keeps its first half and the rest is unread again |
| Compaction.Compactor.AdmittedBelowBudget | src/toolang/execution/compaction.py:371-373 | an admitted request bounds the scale by the budget |
| Compaction.CalibratedCovers | src/toolang/execution/tokens.py:101-107 | calibration takes the least scale, no lower than before, at which the estimate covers the measured usage |
| Compaction.Compactor.Reject | src/toolang/execution/compaction.py:550-563 | a context overflow either shortens the batch to its first half or doubles the scale and shortens the lone unit; accepted, batch and unread units still tile the source and the measure falls |
| CompactionRun.ReadCheckpoint | src/toolang/execution/compaction.py:570-661 | a record is accepted if and only if its succeeded pairs continue each other through the manifest; each pair a succeeded read that names its units and the call after it, and a call with the requested model and setup, its own head, no tools and text; the cursor is the number of units they cover and the summary that of the last pair, or the initial one |
| CompactionRun.CheckpointTiles | src/toolang/execution/compaction.py:570-661 | an accepted record covers one contiguous stretch of the manifest, each unit once |
| CompactionRun.SettledSound | src/toolang/execution/executor/runs/compact.py:205-228 | cancelling Steps left running keeps the record sound and covers the same units |
| CompactionRun.Attempt | src/toolang/execution/executor/runs/compact.py:254-375 | recording one batch and feeding back any reply, error or stop keeps the record sound, the working summary the one a checkpoint would give, and lowers the measure; the loop goes on if and only if the summary is usable or too large with a retry left, or the overflow is of several units or of one that can be shortened |
| CompactionRun.Execute | src/toolang/execution/executor/runs/compact.py:204-375 | for every sequence of replies, refusals and stops the loop resumes at the checkpoint's cursor and summary and ends; coverage only grows, the record stays a sound checkpoint, and a finished run covers exactly the requested units and returns the last recorded summary; it gives up only after a reply it cannot go on from or at a unit that does not fit even shortened, and where every reply serves and every unit fits it finishes |
| ClientSpec.PassIsClosure | src/toolang/execution/stream_client.py:174-183 | over an ancestor-closed table the single pass is the least selection closed under child Runs |
| ClientSpec.RemoveKeeps | src/toolang/execution/stream_client.py:185-196 | removal keeps exactly the records outside the selected Runs |
| ClientSpec.RemoveCloses | src/toolang/execution/stream_client.py:152-196 | removing whole trees leaves no orphan |
| ClientTree.TreeHas | src/toolang/execution/stream_client.py:255-272 | the presented tree of a key holds exactly the records at or under it |
| ClientTree.PresentedOnce | src/toolang/execution/stream_client.py:242-272 | the presentation is a permutation of the table; each record is shown once |
| ClientTree.Nested | src/toolang/execution/stream_client.py:259-272 | whatever lies under a key is presented after its Begin and before its End |
| ClientTree.PresentedClosed | src/toolang/execution/stream_client.py:242-272 | the presentation is itself ancestor-closed, parents before children |
| ClientReducer.AppliedCloses | src/toolang/execution/stream_client.py:198-240 | applying an event with begun ancestors and a stable parent keeps the table ancestor-closed |
| ClientReducer.AppliedOnce | src/toolang/execution/stream_client.py:206-217 | an event delivered again at the same position changes nothing |
| ClientReducer.SnapshotReplays | src/toolang/execution/stream_client.py:198-272 | a snapshot replayed from nothing is accepted if and only if no ended Run has an open child and the record budget holds, and then rebuilds the same records |
| Client.WithoutCloses | src/toolang/execution/stream_client.py:152-196 | a replacement removes exactly the trees it speaks for and leaves a closed table |
| Client.ReplacementRemoves | src/toolang/execution/stream_client.py:152-183 | a record goes if and only if it is in a tree the replacement names, or, with none named, in the tree of a root its scope speaks for; every other record stays |
| Client.RootReplaced | src/toolang/execution/stream_client.py:152-172 | with no roots named, a root goes if and only if the scope is the agent, its own Run or its own thread |
| Client.AgentReplaced | src/toolang/execution/stream_client.py:152-172 | an agent-wide replacement that names no roots leaves nothing of the old table |
| Client.PassIsTrees | src/toolang/execution/stream_client.py:174-183 | the selection is exactly the Runs at or under those asked for |
| Client.AppliedSlots | src/toolang/execution/stream_client.py:212-240 | a stored event adds its slot and disturbs no other, but that a Begin at a position of its own drops the old End |
| Client.AppliedForward | src/toolang/execution/stream_client.py:206-213 | within an epoch no record is taken back to an earlier position |
| Client.IgnoredExactly | src/toolang/execution/stream_client.py:206-217 | which events are ignored: those behind their slot's position, held already, or set from the same position |
| Client.FedForward | src/toolang/execution/stream_client.py:103-142 | within an epoch the cursor moves back only where a replacement commits |
| Client.CommitCloses | src/toolang/execution/stream_client.py:81-102 | a committed replacement over ancestor-closed input leaves a closed table |
| Client.FeedsClose | src/toolang/execution/stream_client.py:60-150 | over every sequence of frames whose applied events have begun ancestors and stable parents, whatever is refused, repeated or replaced, the table stays ancestor-closed |
| Client.WaitingHides | src/toolang/execution/stream_client.py:113-131 | over every sequence of frames without a checkpoint, a pending replacement changes neither table nor cursor and keeps its items in order |
| Client.StreamClientState.Descendants | src/toolang/execution/stream_client.py:174-183 | the loop computes the single-pass selection |
| Client.StreamClientState.RemoveRuns | src/toolang/execution/stream_client.py:185-196 | popping while iterating over a copy leaves exactly the other records and their positions |
| Client.StreamClientState.Forget | src/toolang/execution/stream_client.py:50-52 | removes whole trees and leaves the cursor |
| Client.StreamClientState.Attach | src/toolang/execution/stream_client.py:54-58 | drops a half-received replacement and nothing that was committed |
| Client.StreamClientState.AnyActive | src/toolang/execution/stream_client.py:218-225 | finds whether a direct child Run has begun and not ended |
| Client.StreamClientState.Apply | src/toolang/execution/stream_client.py:198-240 | stale and repeated events are ignored, a RunEnd with an open child is refused, a re-begun incarnation drops its old End, all else is stored in place |
| Client.StreamClientState.Commit | src/toolang/execution/stream_client.py:81-113 | a checkpoint commits a pending replacement whole or changes nothing; without one it moves the cursor forward only |
| Client.StreamClientState.Hold | src/toolang/execution/stream_client.py:119-131 | inside a replacement, frames are only kept, and only structural unacknowledged ones within both budgets |
| Client.StreamClientState.Advance | src/toolang/execution/stream_client.py:132-150 | a live frame behind the cursor is dropped; otherwise it is applied at its own position and moves the cursor |
| Client.StreamClientState.Feed | src/toolang/execution/stream_client.py:60-150 | every frame moves the whole state and is answered as the value-level step says: held while a replacement is pending, committed whole at its checkpoint, applied once otherwise, with every refusal |
| Client.StreamClientState.Snapshot | src/toolang/execution/stream_client.py:242-272 | the explicit-stack loop ends and writes the recursive pre- and post-order, a permutation of the table |
| ObservationSpec.LinePrefix | src/toolang/execution/observation.py:118-128 | every ancestor on a climbed line has the line up to it as its own ancestors |
| ObservationSpec.LiveWellFormed | src/toolang/execution/subscriptions.py:476-500 | over every log whose Steps and Parts fall inside what is open and whose Runs begin or end once accepted, be it after their launching Step has ended, a well-formed prefix that introduces what is going on at the boundary stays well formed under the live suffix if and only if no watched Run accepted since ends without having begun |
| ObservationSpec.RecordedWhole | src/toolang/execution/store.py:684-720 | whatever is recorded has everything above it recorded, over every such log |
| ObservationSpec.StartedWellFormed | src/toolang/execution/subscriptions.py:394-400 | the same for a new root observed from its admission, with nothing silenced |
| ObservationSpec.AsyncRunNests | src/toolang/execution/executor/awaitables.py:68-133 | a log in which a child Run begins after the Step that launched it has ended is among those the results cover |
| ObservationSpec.UnstartedRunEnds | src/toolang/execution/executor/executor.py:1149-1180 | a root canceled before its first turn gives an observer an End without a Begin |
| Observation.StreamNormalizer.Seed | src/toolang/execution/observation.py:137-149 | open Runs and Steps of the snapshot are tracked, and open Steps silenced |
| Observation.StreamNormalizer.Advance | src/toolang/execution/observation.py:159-173 | a Part of a silent Step is withheld; a Begin or End of a Step ends its silence |
| Observation.StreamNormalizer.Ancestors | src/toolang/execution/observation.py:106-129 | the climb yields the ancestors outermost first, or a gap at the first Run without a record |
| Observation.StreamNormalizer.Replay | src/toolang/execution/observation.py:175-222 | a successful replay puts every frame after its ancestors' Begins and every Part after its own source StepBegin, drops only Parts of ended or torn Steps, and introduces everything open with its whole line; it fails at the first frame with an obstacle, or if there is none exactly when an open key has one, and says which |
| Observation.LoadedNeverMissing | src/toolang/execution/store.py:256-334 | with whole trees and all Steps of their Runs loaded, no lookup of a Begin is missing and no open key is an obstacle |
| Observation.RecordMissing | src/toolang/execution/observation.py:191-197 | without the record of an open Step, a Part of it stops the replay as a missing lookup |
| Observation.ReplayIntroduces | src/toolang/execution/observation.py:175-222 | a replayed prefix introduces everything going on at the boundary |
| Observation.AttachmentWellFormed | src/toolang/execution/subscriptions.py:384-418 | a replayed prefix followed by the live suffix is well formed if and only if no watched Run accepted after the boundary ends without having begun, for every log and every length |
| Observation.EventSubscription.SendPrefix | src/toolang/execution/subscriptions.py:470-475 | the prefix is sent first and in order |
| Observation.EventSubscription.SendOne | src/toolang/execution/subscriptions.py:489-500 | a frame taken from the batch is sent, or is a silent Part; sent positions strictly increase |
| Observation.EventSubscription.Receive | src/toolang/execution/subscriptions.py:476-500 | reading on until a frame can be sent acquires and deals with every frame in order; a subscription to one root stops exactly when no Run it was told of is active and the reader is empty |
| Observation.EventSubscription.Checkpoint | src/toolang/execution/subscriptions.py:502-514 | a checkpoint is offered if and only if every frame read up to it was sent or is silent and it lies beyond everything sent |
| Observation.SubscriptionWellFormed | src/toolang/execution/subscriptions.py:384-500 | everything a subscription sends, prefix and live frames together, is well formed if and only if no Run accepted since the boundary has been shown to end without having begun |
| Observation.StartedSubscription | src/toolang/execution/subscriptions.py:394-400 | the same for the subscription of a new root, whose prefix is its own log since admission |
| ObservationTree.ReplacementWellFormed | src/toolang/execution/observation.py:93-104 | the tree-by-tree replacement of ancestor-closed records, followed by the live suffix, is well formed if and only if no watched Run accepted after the boundary ends without having begun |
| EndToEnd.FitsAdmits | src/toolang/execution/stream_client.py:198-240 | a frame that may follow the output sent so far is admissible to every table that holds what that output has begun |
| EndToEnd.FedKeeps | src/toolang/execution/stream_client.py:60-150 | one frame of the output, applied, held back or committing, is admissible and, if accepted, leaves a table that holds all the output has begun |
| EndToEnd.ClientStaysClosed | src/toolang/execution/stream_client.py:60-150 | over every well-formed output, with or without a replacement first, each frame is admissible to the client that follows it; its table is ancestor-closed whether it accepts all or stops at a refusal, and holds all that was begun once nothing is held back |
| EndToEnd.SubscriptionKeepsClosed | src/toolang/execution/subscriptions.py:452-514 | the same for whatever a subscription over any log has sent, as long as no watched Run accepted since the boundary ends without having begun |
| EndToEnd.BareEnd | src/toolang/execution/stream_client.py:198-240 | the End of a Run that never began is inadmissible, is stored all the same, leaves the table not ancestor-closed, and adds nothing to what a snapshot visits |
| EndToEnd.OrphanStays | src/toolang/execution/stream_client.py:198-240 | a Run ended without a Begin stays so, and the table open, under every other event |
| History.GroupsWhole | src/toolang/execution/store.py:4127-4173 | every kept group is one message that asks for nothing, or an assistant message with results that partition its calls |
| History.GroupsInOrder | src/toolang/execution/store.py:4127-4173 | kept messages are a subsequence of the stored ones |
| History.Regroups | src/toolang/execution/store.py:4127-4173 | whole groups laid end to end group back into themselves |
| History.Idempotent | src/toolang/execution/store.py:4127-4173 | filtering what was kept changes nothing |
| History.CollectExchange | src/toolang/execution/store.py:4151-4172 | the set bookkeeping accepts exactly the exchanges whose results partition the calls |
| History.ValidModelHistoryGroups | src/toolang/execution/store.py:4127-4173 | the index loop computes the surviving turns |
| History.RecentUnique | src/toolang/execution/store.py:4107-4124 | there is only one longest suffix within the limit |
| History.RecentValidModelHistory | src/toolang/execution/store.py:4107-4124 | the recent history is the longest group suffix within the limit, or only the newest group; it regroups into itself |
| Talk.ReadDrawn | src/toolang/driver/talk.py:132-160 | a batch read after the cursor holds every incoming entry of its range that was not trimmed unread |
| Talk.ClosedIsSafe | src/toolang/driver/talk.py:186-197 | the cursor a closed batch may save skips no incoming entry whose Run has not ended |
| Talk.StepGrows | src/toolang/driver/talk.py:75-210 | no step forgets a receipt, an ended Run or an entry, and none moves a cursor back |
| Talk.StepKeeps | src/toolang/driver/talk.py:75-293 | every step of the loop, the hub, the store, a late save, a crash and a new registration keeps the protocol invariant |
| Talk.RunKeeps | src/toolang/driver/talk.py:75-293 | the invariant holds after every history |
| Talk.CursorForward | src/toolang/driver/talk.py:87-101 | over every history the saved cursor only moves forward |
| Talk.TalkIsSafe | src/toolang/execution/talk.py:94-133 | over every history: one Run per conversation and cursor, one notice attempt per Run, and nothing incoming behind the cursor but trimmed entries and entries whose Run has ended |
| Talk.LostIsTrimmed | src/toolang/driver/talk.py:129-136 | over every history only entries the hub has trimmed count as lost |
| Talk.NoticesFollowFailures | src/toolang/driver/talk.py:177-197 | over every history: a notice is attempted only for a Run that failed or whose waiting broke off; a batch whose Run was seen to have failed is closed only with its notice accounted for; one closed with its Run failed and unnoticed was last seen running or the loop was stopped |
| Talk.FreshBatchThrough | src/toolang/driver/talk.py:103-210 | from every reachable idle state, a batch with something incoming whose Run ends is closed with the cursor at its end, with a notice exactly if the Run failed |
| Talk.UnseenFailure | src/toolang/driver/talk.py:186-197 | a Run that fails between the resuming look at it and the closing of its batch gets no notice, and the cursor moves past its messages |
| Talk.ReadIsFull | src/toolang/driver/talk.py:132-136 | a read takes everything retained after the cursor, or as much of it as it may |
| Talk.RunsKept | src/toolang/execution/store.py:586-600 | at most one root Run of a conversation's thread is active, and each Run keeps the receipt it was admitted with |
| Talk.FirstNotice | src/toolang/execution/talk.py:124-133 | while the flag of a receipt is clear its Run has had no notice |
| Talk.MessagesOnce | src/toolang/execution/store.py:656-790 | over every history of crashes and lost or late saves, no message is in two receipts, provided the loop forgets a save, on refused access or a changed Hub, only with nothing of it on the wire |
| Talk.PickRepeats | src/toolang/driver/talk.py:116-160 | a fresh read holds an already admitted incoming message if and only if the saved cursor lies strictly inside an admitted range with an incoming message still retained in the rest of it |
| Talk.OnceExactly | src/toolang/driver/talk.py:75-293 | over every history, each incoming message is in at most one receipt if and only if no batch was admitted that had been read with the cursor in that position |
| Talk.DeniedSaveRepeats | src/toolang/driver/talk.py:87-101 | a history in which a save forgotten on refused access lands later and one message is admitted with two Runs |
| IdCodec.XorUndoes | src/toolang/common/id_codec.py:59-68 | mixing the same mask twice restores the value |
| IdCodec.ValueOfDigits | src/toolang/common/id_codec.py:23-45 | decoding the fixed-width digits of a value in range gives the value |
| IdCodec.DigitsOfValue | src/toolang/common/id_codec.py:23-45 | the digits of a decoded canonical text are the text |
| IdCodec.EncodeShortId | src/toolang/common/id_codec.py:23-30 | the right-to-left loop writes the fixed-width digits; values out of range are refused |
| IdCodec.DecodeShortId | src/toolang/common/id_codec.py:33-45 | the normalized text is read digit by digit; a wrong length or character is refused |
| IdCodec.ScrambleBijective | src/toolang/common/id_codec.py:48-69 | for every round function the four Feistel rounds and their reverse cancel both ways |
| IdCodec.ScrambleId | src/toolang/common/id_codec.py:48-69 | the loop in either direction computes that permutation; bad ranges and odd widths are refused |
| IdCodec.GlyphsSpellAlphabet | src/toolang/common/id_codec.py:10-11 | the digit symbols, in order, are the lowercase Base32 alphabet |
| Ids.Inverse | src/toolang/common/ids.py:447-449 | every odd multiplier has an inverse modulo every power of two |
| Ids.AffineDecodes | src/toolang/common/ids.py:443-449 | the affine code is undone by any inverse of its multiplier |
| Ids.AffineEncodes | src/toolang/common/ids.py:443-449 | and encodes what it decodes, so it is a bijection |
| Ids.DecodeEncode | src/toolang/common/ids.py:242-304 | decoding inverts encoding for every family, key, tick and sequence number |
| Ids.EncodeDecode | src/toolang/common/ids.py:242-304 | every canonical text of the right width is the id of exactly one place |
| Ids.IdsDistinct | src/toolang/common/ids.py:242-266 | different places have different ids |
| Ids.EncodeId | src/toolang/common/ids.py:242-266 | a place in range is encoded, any other is refused |
| Ids.DecodeId | src/toolang/common/ids.py:269-304 | a text is decoded to its place, or refused for its length or characters |
| Ids.ReserveNextId | src/toolang/common/ids.py:318-353 | a reservation is lexicographically after the last one whatever the clock says, is free, and skips only taken ids; each refusal has its own exact cause |
| Ids.Bucket | src/toolang/common/ids.py:332-333 | the bucket is the clock's, or the last one if the clock is behind it |
| Ids.FirstIsLeast | src/toolang/common/ids.py:336 | numbering starts at the least number that makes the place later than the last |
| Ids.Allocator.Allocate | src/toolang/common/ids.py:356-399 | a committed reservation issues an id never issued before; a failed one changes nothing |
| Ids.Allocator.NoRepeats | src/toolang/common/ids.py:356-399 | all ids ever issued for one family and agent are pairwise different |
| LiveSpec.ChargedOwes | src/toolang/execution/live.py:134-147 | charging a report to a Run's totals accounts for exactly one more entry: token sums, parts known only if all are known, and the settled cost sum |
| LiveSpec.BeneathChild | src/toolang/execution/live.py:224-231 | whatever lies beneath a node lies at or beneath one of its children |
| Live.LiveTree.Add | src/toolang/execution/live.py:204-210 | a node is added as a leaf under a resident parent, or refused |
| Live.LiveTree.AcceptRun | src/toolang/execution/live.py:43-68 | a resident Run is continued; a new one starts with nothing consumed, and its account starts there |
| Live.LiveTree.BeginRun | src/toolang/execution/live.py:70-80 | a resident Run is marked running, anything else is refused |
| Live.LiveTree.BeginStep | src/toolang/execution/live.py:82-108 | a Step is added under its parent |
| Live.LiveTree.RunsAbove | src/toolang/execution/live.py:224-231 | the climb lists the live Runs above a node, innermost first |
| Live.LiveTree.Invoke | src/toolang/execution/live.py:110-122 | an invocation is counted once, on exactly the Runs above the Step |
| Live.LiveTree.NoteModel | src/toolang/execution/live.py:124-147 | a report is charged to the Runs above up to the first one its cost would overflow, and to no other; the ledger keeps all Runs above beside those charged |
| Live.LimitFull | src/toolang/execution/live.py:134-147 | a report reaches every Run above exactly when it overflows none |
| Live.ChargedUpTo | src/toolang/execution/live.py:134-147 | a Run above a report is charged if and only if the cost overflows neither it nor a Run beneath it on the line |
| LiveSpec.AccountComplete | src/toolang/execution/live.py:124-147 | counters that account for the charged reports account for all reports beneath exactly when none was missed |
| Live.OverflowSplits | src/toolang/execution/live.py:134-147 | a tree is driven to where an inner Run has been charged for a report and the outer one has missed it |
| Live.LiveTree.RunReport | src/toolang/execution/live.py:171-173 | the report of a live Run accounts for everything invoked or reported beneath it since it was accepted, in discarded branches too, if and only if no report stopped short of it (whenever its cost is known or reports carry tokens) |
| Live.LiveTree.EndStep | src/toolang/execution/live.py:175-182 | an ended Step goes with every ancestor it leaves terminal and childless, and nothing else |
| Live.LiveTree.EndRun | src/toolang/execution/live.py:184-191 | everything beneath an ended Run goes, then its closed ancestors |
| Live.LiveTree.Discard | src/toolang/execution/live.py:233-239 | removes the node and exactly what lies beneath it, and its listing |
| Live.LiveTree.Prune | src/toolang/execution/live.py:241-250 | removes a closed branch upward and leaves every terminal non-root node with a child |
| Live.LiveTree.Visit | src/toolang/execution/live.py:193-202 | lists a node and everything beneath it once, parents first |
| Live.LiveTree.Snapshot | src/toolang/execution/live.py:193-202 | lists the resident tree under the root once, parents first |
| Live.OneTree | src/toolang/execution/live.py:43-68 | everything resident is under the root if and only if no other Run was accepted without a parent |
| Live.SecondTop | src/toolang/execution/live.py:43-68 | accepting two Runs without a parent leaves both resident, nothing beneath the root, and the snapshot listing the root alone |
| Money.CostUnits | src/toolang/base/money.py:14-36 | settlement is within half a micro-USD, halves upward |
| Money.AddCost | src/toolang/base/money.py:70-76 | settled amounts add exactly |
| Billing.InputLines | src/toolang/execution/accounting.py:216-257 | input lines never exceed the input tokens when audio fits its share; a complete estimate bills each input token once exactly then |
| Billing.InputAddsUp | src/toolang/execution/accounting.py:216-257 | which shares must be priced for the input side to be complete, and when the lines add up to the total |
| Billing.OutputLines | src/toolang/execution/accounting.py:259-302 | the same for the output side, with reasoning and visible tokens |
| Billing.CostFromRates | src/toolang/base/money.py:87-99 | the settled amount is within half a micro-USD of the exact total, for any number of lines; totals past the maximum are refused |
| Billing.EstimateCost | src/toolang/execution/accounting.py:203-326 | there is a line for exactly the meters that have a share and a rate, each once, for its share at its rate; completeness is decided exactly; a complete estimate partitions the tokens |
| Billing.TotalByShares | src/toolang/execution/accounting.py:216-322 | the exact total is each reported part at its own rate plus the rest of the input and of the output at the plain rates, per million tokens |
| Flatname.EncodeFlatname | src/toolang/common/flatname.py:11-29 | the loop spells the content byte by byte and escapes trailing dots |
| Flatname.DecodeFlatname | src/toolang/common/flatname.py:32-64 | the loop reads units from the front and reports the position of the first malformed escape |
| Flatname.DecodeEncode | src/toolang/common/flatname.py:11-64 | every byte content is read back from its spelling |
| Flatname.Injective | src/toolang/common/flatname.py:11-64 | different contents have different names |
| Flatname.EncodedSafe | src/toolang/common/flatname.py:11-29 | a name is nonempty printable ASCII without slash or reserved characters other than `%`, and never ends in a dot |
| Flatname.PieceIs | src/toolang/common/flatname.py:18-27 | a slash is spelled `%`, a plus `++`, other safe characters as themselves and every other byte as two lower-case digits |

## Left out

- Transport, HTTP and SSE framing, JSON text and schema validation: frames enter as values.
- SQLite: tables are maps and each write transaction is one step; stored text, migration and row decoding are not modelled.
- Floating point: prices, scales and amounts are read as the exact decimals they print as.
- Tokenizers, provider calls, BLAKE2s, SHA-256, UTF-8 and Unicode normalization: functions given as parameters.
- Wall-clock deadlines, snapshot expiry, byte budgets of snapshots and asyncio cancellation.
- Stream: the path of `_notify` for an event loop that is already closed, `TraceObserver` and cursor parsing are not modelled.
- Stream.CanonicalStream.Subscribe: the subscription's stream lock is the atomicity of a method; `gate` and `boundary` are not separate members.
- Observation.StreamNormalizer.Replay: the size and time budget of the prefix is left out, and which records the store selects for a snapshot is an assumption (`Reflects`, `Loaded`).
- Client.StreamClientState.Feed: the snapshot returned with a commit is computed by `Snapshot`, not inside the method; parsing errors of frames are left out.
- EndToEnd.SubscriptionKeepsClosed: that acknowledged positions ascend on the wire is a premise about the outputs (`Orderly`), and the contents of events are not compared.
- Compaction.Compactor.Truncate: the JSON shortener and the textual excerpt are parameters, and nothing is assumed about what they cut.
- CompactionRun.ReadCheckpoint: the checks of the Run's entry contract before the loop (owner Step, policy version, order of the unit manifest) are left out, and a model Step carries the text of its output, if it has one, rather than Parts.
- ClaimLock: in-process re-entrancy (mutex and depth counter), symlink checks, ownership inheritance and temporary names are left out.
- EditLock: a read inside the same thread's write is left out.
- ModelCalls: one Run at a time; a Step reference enters as its rank in execution order, and instructions and tool sets are left out.
- Talk: the hub's lease enters as one step: registering again voids what an earlier process left on the wire; lease expiry, renewal and two live processes of one agent are left out.
- Talk: receipts imported from another owner, which the loop skips, and conversation rules are left out; other work on a conversation's thread can only refuse an admission.
- Ids.Allocator.Allocate: the row is always one the allocator wrote, so the checks of a foreign row are left out; the canonical agent name check is left out.
- Ids.DecodeId: stripping and lower-casing are a parameter that may be applied twice without effect.
- Live.LiveTree.BeginStep: a Step begins in a status that is not terminal; the store writes `running` for every new Step.
- Live.LiveTree: display fields (names, summaries, times, occurrences) and `terminal_report` are left out.
- Billing: plan and tier selection, negative rates and the choice between reported and estimated cost are left out.
- Flatname: names are over byte content; decoding the bytes as UTF-8 is left out.
- History: messages carry only their role, call ids, result ids and an opaque body.
- `_ThreadProjection`, `RunView`, catalogs, templates and remote sources are left out; they would add easy members.
