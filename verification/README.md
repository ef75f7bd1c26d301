# Verified model of mq-bridge's delivery core

mq-bridge moves messages from consumers to publishers and promises at-least-once delivery. This
project models the code that decides when something may be acknowledged, dropped, reordered or
forgotten, and proves what the rest of the system relies on. `dafny verify dfyconfig.toml` checks
everything.

Each component comes in up to four layers that share the same definitions:

1. functions on values that say what one operation does, with the laws they obey;
2. classes and methods in the form of the source (fields updated in place, loops, arrays), proved
   against those functions;
3. a transition system whose steps are the points where the source can be interleaved, with
   theorems over every run;
4. methods that call the objects of layer 2 and prove that what they did is a run of layer 3, so that
   the theorems speak about the objects.

Contracts of operations say what happens in terms of the stored values, offsets, clock readings and
literals of the source, beside naming the function that computes it.

| file | component |
|---|---|
| `Messages.dfy` | messages, dispositions, error classes |
| `EventLog.dfy`, `EventStore.dfy`, `EventRuns.dfy`, `EventSteps.dfy` | in-memory event log, its consumers, retention and garbage collection |
| `DeferredCommits.dfy`, `DeferredRuns.dfy`, `DeferredSteps.dfy` | commits of batches a middleware emptied, in front of an ordered route |
| `Checkpoint.dfy`, `CheckpointRuns.dfy`, `CheckpointSteps.dfy` | file checkpoint store: cursor keys, the lock table, temp file and rename, crashes |
| `Cancellation.dfy`, `CancellationRuns.dfy`, `CancellationSteps.dfy` | cancellation with a cached generation |
| `SendBatch.dfy` | batch sends completing out of order |
| `Dispatch.dfy`, `TypeDispatch.dfy` | default batch handling, command and event publishers, dispatch by type |
| `AmqpReconnect.dfy`, `AmqpHeaders.dfy` | AMQP reconnect generations; properties and headers on the wire |

## What the code needs from its surroundings

Some theorems hold only under a premise about the callers. Each premise is a flag of the transition
system, and a concrete run shows the theorem fail without it.

- Event store: commits of one consumer run in receive order (`OutOfOrderCommitOvertakes`), and no nack
  tears a receive: the position store finds the position that was loaded, and the epoch load the
  position that was stored, with no nack between its epoch bump and its rewind. The route does not
  keep to the second; see the next section.
- Cancellation: a context is polled by one thread at a time (`TwoPollersLoseTheLatch`), and a poll is
  owed a true only if it began after the cancel's generation bump (`PollInsideCancelAnswersFalse`).
- Deferred commits: no idle counter is read with a batch collected and uncounted, and neither a flush
  nor an inline commit starts with something in flight or held. Not every caller keeps to this; the
  next section says which do not.

## Where the code does less than its documentation says

The model follows the code. Each case has a counterexample and the exact condition.

- `checkpoint_key` says that sources sharing a store never collide. `a.b` and `a_b` do
  (`DottedSourceCollides`); two cursors share a key exactly when their sources sanitize alike and
  their ids are equal (`KeysCollideExactly`).
- `CancelHandle` says that the last 1024 cancelled ids are remembered. Cancelling a remembered id
  again does not refresh it (`RecancelDoesNotRefresh`); an id is remembered exactly when fewer than
  1024 ids were newly inserted since its own last insertion (`RememberedExactly`).
- `handle_many` says that a retryable failure aborts the rest of the batch. Dispatch by type goes on
  with the other runs (`RunsDoNotAbortTogether`); for all handlers that abort together themselves it
  holds exactly when, from the first routable message on, all messages have one target
  (`AbortsTogetherExactly`).
- The event store's consumer says that a batch read before a rewind must not ack past it. A nack that
  lands inside a receive defeats this: the receive stores the position it loaded before the rewind and
  its batch carries the epoch after it (`NackInsideReceiveOvertakes`), and so does one that lands between
  the position store and the epoch load (`NackBeforeSealOvertakes`). The route makes such nacks: with
  a retry middleware a transient failure is nacked and the route goes on (`src/route.rs:1189-1207`)
  while the next receive is pending (`src/route.rs:1024-1038`), and concurrent workers commit through
  the sequencer meanwhile (`src/route.rs:2879`, `src/route.rs:3265`). With in-order commits the ack of a
  batch is justified exactly when everything below it was covered when it was handed out
  (`AckJustifiedExactly`); `StoreSkipsExactly` and `SealSafeExactly` say when a receive brings that
  about, `SkippedStays` and `AckPassesSkipped` what follows if it does not. A check of the position at
  the store and at the epoch load would be enough, if a nack's two updates were one
  (`FrontierIsProcessed`).
- The module documentation of the deferred commits says that an emptied batch is not acknowledged
  ahead of an uncommitted retained batch. Three kinds of callers can do so: the filter's refill loop,
  which takes the held commits of a collected batch and counts the delivery only after reading on
  (`CollectedIsOvertaken`); the flush on the empty batch that ends a drain, which does not look at the
  in-flight counter (`FlushOvertakesRetained`); and the deduplication's inline commits, of duplicates in
  a single receive and of nacks when a reservation fails (`InlineOvertakesRetained`). `OrderExactly`
  says for each when its commits are in order, and `EachGuardSuffices` which check of its own would be
  enough. The deduplication's single receive also counts a delivery without taking what is held; the
  runs always take it, which is the same while nothing is held.

## Model

| member | source | states |
|---|---|---|
| EventLog.LiveOffsets | src/event_store.rs:363-367 | in a conserved log the event at index i has offset base + i and is the one appended at that offset |
| EventLog.AppendOneConserves | src/event_store.rs:129-183 | an append loses, duplicates and renumbers nothing: drop log followed by live events stays the history, and the count bound holds |
| EventLog.AppendManyConserves | src/event_store.rs:186-252 | the same for a batch append, the empty batch and a bound of zero included |
| EventLog.AppendManyIsAppendEach | src/event_store.rs:186-252 | a batch append equals appending its messages one by one at the same timestamp: events, base, next offset, dropped total, drop log and history |
| EventLog.DrainTwice | src/event_store.rs:150-163 | enforcing the bound before and after one more event drops what enforcing it once at the end drops |
| EventLog.NewerIsSuffix | src/event_store.rs:362-371 | the index arithmetic picks exactly the stored events above the known offset |
| EventLog.ReadIsHistorySlice | src/event_store.rs:343-392 | a read hands out a contiguous piece of the append history starting right above the known offset |
| EventLog.ReadIsNumbered | src/event_store.rs:362-391 | a read returns min(limit, available) stored events numbered on from the known offset |
| EventLog.AckUpTo | src/event_store.rs:301-319 | the frontier becomes the larger of old one and acked offset, the clock reading is taken over, nobody else changes |
| EventLog.EvictsExactly | src/event_store.rs:421-425 | a subscriber stays exactly when lastSeen <= now < lastSeen + timeout, and as it was |
| EventLog.GcCount | src/event_store.rs:444-470 | the prefix scan finds the longest prefix of events acked by all or over age |
| EventLog.LongestRemovableUnique | src/event_store.rs:444-470 | there is only one such prefix, so the scan removes neither less nor more |
| EventLog.CollectConserves | src/event_store.rs:472-478 | garbage collection conserves the log like an append does |
| EventLog.CollectReachesMinAck | src/event_store.rs:431-451 | with a live subscriber the new base is at least min(min ack + 1, next offset), whatever the timestamps |
| EventLog.CollectsExactly | src/event_store.rs:444-478 | every removed event was acked by all subscribers of a non-empty registry or is older than the age bound in nanoseconds, and the first one left is neither |
| EventStore.EventStore.constructor | src/event_store.rs:110-125 | a new store is empty, offsets start at 1 |
| EventStore.EventStore.Append | src/event_store.rs:129-183 | the store becomes the one-message append of its old value: stamped with the clock in milliseconds, put at the returned offset of the history, and what exceeds the bound dropped and counted |
| EventStore.EventStore.AppendBatch | src/event_store.rs:186-252 | the store becomes the batch append of its old value, of which min(bound, all) events stay and the rest is counted as dropped; returns the last offset, also for an empty batch |
| EventStore.EventStore.EnforceMaxCount | src/event_store.rs:150-163 | exactly the excess over the bound is drained, oldest first, and counted as dropped |
| EventStore.EventStore.GetEventsSince | src/event_store.rs:343-392 | for every wrap position and up to the largest offset: min(limit, available) events numbered on from the known offset, and a gap exactly when the wanted offset is below base |
| EventStore.EventStore.CopySlices | src/event_store.rs:373-391 | copying from the two halves of the ring buffer equals slicing the whole |
| EventStore.EventStore.Ack | src/event_store.rs:301-337 | the frontier never moves back, unknown subscribers change nothing, and a garbage collection runs exactly when the interval is zero or has passed since the last one |
| EventStore.EventStore.RunGc | src/event_store.rs:407-489 | nothing without subscribers; otherwise exactly those with lastSeen <= now < lastSeen + timeout stay, with their frontiers, and the events removed are exactly the longest prefix each of which all of them acked or which is older than the age bound |
| EventStore.EventStore.RemovablePrefix | src/event_store.rs:444-470 | the loop computes the longest removable prefix |
| EventStore.EventStore.MinAck | src/event_store.rs:426-436 | an offset is at or below the result exactly when every registered subscriber acked it |
| EventStore.EventStore.Unread | src/event_store.rs:493-500 | the saturating arithmetic counts the stored events above the highest delivered offset |
| EventStore.RewindTo | src/event_store.rs:596-597 | a rewind leaves the position at the smaller of the old one and the nacked batch's start |
| EventStore.EventStoreConsumer.ReceiveBatch | src/event_store.rs:532-609 | an undisturbed receive returns the messages of the history right above the position, as many as there are and are wanted, in the current epoch, and advances to their end; a gap or a drained wait changes no position |
| EventStore.EventStoreConsumer.Commit | src/event_store.rs:590-603 | with a nack among the dispositions the epoch is bumped, the position goes back to at most the batch's start and nothing is acked; with none the batch is acked exactly in the epoch it was read in |
| EventRuns.StepKeepsLogInv | src/event_store.rs:129-609 | every step, in any interleaving and without premises, conserves the log and keeps positions and batches faithful to the history |
| EventRuns.StoreKeepsCovered | src/event_store.rs:571-578 | a position store that finds the position its receive loaded skips nothing |
| EventRuns.SealKeepsEpochs | src/event_store.rs:584-588 | an epoch load that finds the position just stored hands out a batch with everything below it covered |
| EventRuns.AckKeepsCovered | src/event_store.rs:598-600 | a commit without a nack, in any order, turns its batch from outstanding into processed and skips nothing |
| EventRuns.AckKeepsEpochs | src/event_store.rs:598-600 | an in-order ack uncovers nothing below the batches behind it |
| EventRuns.NackKeepsCovered | src/event_store.rs:592-597 | a nack, also inside a receive and in any order, gives up only what its rewind will read again |
| EventRuns.FreshHeadAcksProcessed | src/event_store.rs:598-600 | when the head batch acks in its own epoch, everything up to its end is processed |
| EventRuns.StepKeepsAckInv | src/event_store.rs:301-609 | with in-order commits and untorn receives every step keeps frontiers, pending snapshots and removals justified by processed batches |
| EventRuns.LogIsConserved | src/event_store.rs:129-252 | over every run: drop log + live events = history, live event i has offset base + i, next offset and base count appends and removals |
| EventRuns.UnreadCountsUnhanded | src/event_store.rs:493-500 | over every run the offsets ever handed out are exactly 1..delivered, so `unread` counts the stored events never handed to anyone |
| EventRuns.FrontierIsProcessed | src/event_store.rs:532-609 | over every such run, each offset up to an ack frontier was in a batch its consumer committed with dispositions that hold no nack, and that batch carried that very message |
| EventRuns.GcRemovesOnlyProcessedOrAged | src/event_store.rs:407-489 | over every such run there is one record for each event a garbage collection removed, and each was over age or processed by every subscriber registered at that collection |
| EventRuns.DrainTakesItsSnapshot | src/event_store.rs:438-478 | a drain removes exactly by the frontiers and clock of its own snapshot, whatever was acked or registered since |
| EventRuns.NothingSkipped | src/event_store.rs:571-603 | over every run with untorn receives, in whatever order batches commit, each offset at or below a consumer's position and the rewinds under way is processed or in an outstanding batch |
| EventRuns.NackRewinds | src/event_store.rs:592-597 | over every run without premises, once a nack has rewound, every receive that begins before the next position store starts at or before the nacked batch |
| EventRuns.AckJustifiedExactly | src/event_store.rs:518-603 | over every run with in-order commits, torn receives included: the ack of a batch leaves everything up to its end processed if and only if everything below it was processed or in an earlier outstanding batch when it was handed out |
| EventRuns.SealSafeExactly | src/event_store.rs:578-588 | when the epoch is loaded, that holds if and only if everything between where the consumer reads on and the batch is covered |
| EventRuns.StoreSkipsExactly | src/event_store.rs:537-578 | a position store skips nothing if and only if everything between the position it finds and the one the receive loaded is covered |
| EventRuns.SkippedStays | src/event_store.rs:571-603 | over every run without premises a skipped offset stays skipped until a nack or a restart of its consumer |
| EventRuns.AckPassesSkipped | src/event_store.rs:598-600 | an ack in its own epoch of a batch ending at or above a skipped offset moves the frontier past it unprocessed |
| EventRuns.OutOfOrderCommitOvertakes | src/event_store.rs:526-528 | a run with out-of-order commits acks an event nobody processed |
| EventRuns.NackInsideReceiveOvertakes | src/event_store.rs:518-588 | a run with in-order commits and a nack between position load and position store acks an event nobody processed |
| EventRuns.NackBeforeSealOvertakes | src/event_store.rs:571-588 | the same with the nack between position store and epoch load |
| EventSteps.AppendTakes | src/event_store.rs:129-183 | an append on the store is the append step of the runs |
| EventSteps.AppendBatchTakes | src/event_store.rs:186-252 | a batch append on the store is the batch step of the runs |
| EventSteps.RegisterTakes | src/event_store.rs:277-297 | a registration on the store is the registration step of the runs |
| EventSteps.ConsumerTakes | src/event_store.rs:498-511 | a new consumer is a step of the runs, also as a restart: position and epoch are zero and nothing is outstanding |
| EventSteps.ReceiveTakes | src/event_store.rs:532-609 | a receive on store and consumer is a legal run of begin, read, store and seal, or of begin, read and give up, with the batch it returned outstanding |
| EventSteps.CommitTakes | src/event_store.rs:301-489 | a commit on store and consumer is a legal run of the commit, the rewind if it nacks, and the two halves of a garbage collection if one is due |
| DeferredCommits.Classify | src/middleware/deferred_commit.rs:109-124 | the dispositions can be read back, and a plain count is kept exactly when all are acks |
| DeferredCommits.OldestAck | src/middleware/deferred_commit.rs:138-140 | the first entry without a reply, everything before it carries one |
| DeferredCommits.EvictKeepsReplies | src/middleware/deferred_commit.rs:137-144 | eviction never discards an entry with a reply |
| DeferredCommits.PushKeepsBound | src/middleware/deferred_commit.rs:137-145 | over the bound the queue keeps at most one plain ack |
| DeferredCommits.HoldAllKeeps | src/middleware/deferred_commit.rs:27-40 | however many are held: replies all kept in order, the newest survives, length within max(1024, replies + 1), nothing invented, and up to 1024 nothing lost |
| DeferredCommits.PositionIsLargest | src/middleware/deferred_commit.rs:36-40 | running commits leaves a cumulative-ack source at the largest read among them |
| DeferredCommits.BoundedQueueReachesSamePosition | src/middleware/deferred_commit.rs:27-40 | running the bounded queue leaves a cumulative-ack source where running every held commit would |
| DeferredCommits.Attempted | src/middleware/deferred_commit.rs:171-176 | commits run up to and including the first failure |
| DeferredCommits.CallsOf | src/middleware/deferred_commit.rs:53-72 | a commit of a held batch carries its reply's dispositions, or one ack per dropped message |
| DeferredCommits.RunAll | src/middleware/deferred_commit.rs:171-176 | the source sees the commits oldest first up to the first failure, each with its reply's dispositions or one ack per dropped message; success means all were accepted |
| DeferredCommits.DeferredCommits.AckEmptied | src/middleware/deferred_commit.rs:97-104 | the dropped messages are disposed of as plain acks; on an unordered source by one call now with one ack per dropped message |
| DeferredCommits.DeferredCommits.SettleEmptied | src/middleware/deferred_commit.rs:109-124 | the dropped messages are disposed of with their dispositions, kept as a count exactly when all are acks; on an unordered source by one call now with those dispositions |
| DeferredCommits.DeferredCommits.Hold | src/middleware/deferred_commit.rs:126-153 | run now on an unordered source; behind an uncommitted batch hold it, from 1024 held on in exchange for the first plain ack; otherwise drain oldest first until a commit fails and keep the rest |
| DeferredCommits.DeferredCommits.RemoveOldestAck | src/middleware/deferred_commit.rs:137-144 | the scan removes the first plain ack if there is one |
| DeferredCommits.DeferredCommits.DrainHeld | src/middleware/deferred_commit.rs:146-151 | held commits go to the source oldest first with their own dispositions; a failing one is lost alone and later ones stay held |
| DeferredRuns.StepKeepsInv | src/middleware/deferred_commit.rs:126-176 | every interleaved step of reader and sequencer keeps the exact condition of each call and, until something fails or overtakes, called and pending reads in read order |
| DeferredRuns.SourceSeesReadOrder | src/middleware/deferred_commit.rs:1-13 | over every run with the guards, up to and including the first failing commit the source sees strictly increasing reads and never one with a batch read earlier, retained or emptied, still to be committed |
| DeferredRuns.RepliesAreKept | src/middleware/deferred_commit.rs:30-31 | over every run without a failure, whoever overtakes whom, each reply's dispositions went to the source for its own read or are still to go, and the queue stays within its bound outside the drain loop |
| DeferredRuns.ReplyLostExactly | src/middleware/deferred_commit.rs:126-176 | after every run and for every next step, failures included, a reply still to be committed is lost if and only if that step gives it up: behind a failing commit of its delivery or flush, in an abandoned delivery or in a failed receive |
| DeferredRuns.StepConserves | src/middleware/deferred_commit.rs:126-176 | every step moves reads from the line to the calls, adds what it reads and loses exactly what it gives up |
| DeferredRuns.FailureLosesReply | src/middleware/deferred_commit.rs:171-176 | a run, with all guards, in which that happens |
| DeferredRuns.IdleDrainOnlyWhenAllSettled | src/middleware/deferred_commit.rs:50-55 | over every run without premises and even after failures, an idle drain commits only with every retained batch settled, or collected and not counted yet, or lost with a failed receive |
| DeferredRuns.SettledIsCommitted | src/middleware/deferred_commit.rs:50-90 | over every run a batch counts as settled only after the source was called for it and took the call |
| DeferredRuns.FailedCommitClosesDrain | src/middleware/deferred_commit.rs:50-90 | once a counted commit failed or never ran, no run has an idle drain again |
| DeferredRuns.LostBatchIsOvertaken | src/middleware/filter.rs:1040-1094 | a run, with all guards, in which a receive fails after collecting a batch and a later emptied batch is drained as idle |
| DeferredRuns.OrderExactly | src/middleware/deferred_commit.rs:1-13 | over every run without any premise, up to the first failing or overtaking commit: route commits are in order; an idle drain's exactly when no batch is collected and uncounted; a flush's exactly when the route has nothing left to run; an inline one exactly when nothing is left at all |
| DeferredRuns.EachGuardSuffices | src/middleware/deferred_commit.rs:126-176 | for each of the three callers the guard it could check itself (nothing collected, nothing in flight, nothing in flight, held or collected) puts all its commits in order |
| DeferredRuns.FlushOvertakesRetained | src/middleware/filter.rs:1008-1020 | a run in which that flush commits ahead of a retained batch still in flight |
| DeferredRuns.CollectedIsOvertaken | src/middleware/filter.rs:1050-1094 | a run in which the filter's refill loop commits an emptied batch ahead of one it collected and has not counted |
| DeferredRuns.InlineOvertakesRetained | src/middleware/deduplication.rs:907-921 | a run in which a single receive commits a duplicate ahead of a retained message in flight |
| DeferredSteps.HoldTakes | src/middleware/deferred_commit.rs:126-153 | holding an emptied batch on an ordered source is a legal run of read, push and the drain loop, with the calls it made |
| DeferredSteps.DeliverTakes | src/middleware/filter.rs:1058-1094 | taking what is held and counting a delivery is the collect and deliver step of the runs |
| DeferredSteps.CommitTakes | src/middleware/filter.rs:965-971 | a delivery's commit is a legal run of its route steps, with the calls it made, and settles exactly if all succeed |
| DeferredSteps.DrainEndTakes | src/middleware/filter.rs:1008-1020 | the flush on the empty batch that ends a drain is a legal run of flush steps, with the calls it made |
| Checkpoint.OtherKeysUntouched | src/checkpoint.rs:250-262 | changes of other cursors never change what this cursor loads |
| Checkpoint.LastChangeWins | src/checkpoint.rs:246-262 | a load returns what the last save or clear of that cursor left |
| Checkpoint.SanitizeIdent | src/checkpoint.rs:347-359 | length is kept, ASCII letters, digits and the underscore are unchanged, every other character becomes an underscore |
| Checkpoint.KeysCollideExactly | src/checkpoint.rs:412-414 | two cursors share a key exactly when their sources sanitize alike and their ids are equal |
| Checkpoint.DottedSourceCollides | src/checkpoint.rs:410-414 | distinct sources that do collide |
| Checkpoint.IdentSourcesSeparate | src/checkpoint.rs:410-414 | sources of ASCII letters, digits and underscores only never collide |
| Checkpoint.FileCheckpointStore.Load | src/checkpoint.rs:231-248 | the cursor's value in the file, nothing for a missing file, an error for an unreadable or unparseable one |
| Checkpoint.FileCheckpointStore.Save | src/checkpoint.rs:250-255 | all or nothing, and after success a load returns the saved value |
| Checkpoint.FileCheckpointStore.Clear | src/checkpoint.rs:257-262 | all or nothing, and after success a load returns nothing |
| Checkpoint.FileCheckpointStore.Update | src/checkpoint.rs:266-322 | success publishes exactly the changed map, any failure leaves the file alone; a temp file stays behind only if the update failed and its removal did too |
| CheckpointRuns.ReclaimKeepsOwned | src/checkpoint.rs:206-207 | reclaiming never frees a lock some updater still owns a clone of |
| CheckpointRuns.StepKeepsLockInv | src/checkpoint.rs:202-212 | every step keeps one lock per path, exact reference counts and a single holder |
| CheckpointRuns.TableHoldsOnlyUsed | src/checkpoint.rs:202-212 | right after a claim the lock table holds the claimed path and the paths some updater is at work on, and no other |
| CheckpointRuns.LateCallerWaits | src/checkpoint.rs:202-212 | a caller that comes while another updater is at work on the path gets the same lock and waits until it is released |
| CheckpointRuns.AtMostOneUpdater | src/checkpoint.rs:200-212 | over every run at most one updater of a path is inside its read-modify-write |
| CheckpointRuns.PublishLocal | src/checkpoint.rs:304-308 | the rename publishes the committed changes of the path with this one on top |
| CheckpointRuns.CrashKeepsFileInv | src/checkpoint.rs:284-308 | a crash at any point leaves every file as the last rename left it |
| CheckpointRuns.StepKeepsFileInv | src/checkpoint.rs:266-322 | every step keeps each file a replay of its committed changes and each updater's view of it current |
| CheckpointRuns.FileIsReplayOfCommits | src/checkpoint.rs:266-322 | after every step of every run, crashes included, a file is the initial one with the committed changes replayed in lock order; an unlocked load never sees a partial map |
| CheckpointRuns.SuccessfulUpdatesAreCommitted | src/checkpoint.rs:266-322 | every update that returned success is among the replayed changes |
| CheckpointSteps.UpdateTakes | src/checkpoint.rs:266-322 | an update on the store is a legal run of the update's steps that ends in the same file and temp files and acknowledges exactly on success |
| Cancellation.RememberKeepsDistinct | src/blocking_handler.rs:104-111 | the memory stays free of duplicates, within 1024, and holds the id just cancelled |
| Cancellation.MemoryIsNewest | src/blocking_handler.rs:92-111 | after every history of cancels the memory is exactly the newest 1024 cancels of ids not remembered at that moment |
| Cancellation.RememberedExactly | src/blocking_handler.rs:92-111 | after every history an id is remembered exactly when it was cancelled and fewer than 1024 ids were newly inserted since its own last insertion |
| Cancellation.RecancelDoesNotRefresh | src/blocking_handler.rs:92-111 | after every history, the oldest remembered id is forgotten by the next new one even if it was cancelled again just before |
| Cancellation.RecancelledIsForgotten | src/blocking_handler.rs:92-111 | 1024 different cancels, the first id again, then a new one: the id just cancelled again is forgotten |
| Cancellation.CancelState.Cancel | src/blocking_handler.rs:99-113 | set and queue stay in step, the id is remembered and the generation moves |
| Cancellation.CancelState.IsCancelled | src/blocking_handler.rs:115-117 | true exactly for the remembered ids |
| Cancellation.HandlerContext.IsCancelled | src/blocking_handler.rs:138-152 | undisturbed, the cached check answers like the direct lookup or-ed with the earlier answers; false without an id |
| Cancellation.ServeJob | src/blocking_handler.rs:209-235 | with cancels arriving before the check and before the poll: skipped exactly when remembered at the check, otherwise the poll sees whether it is remembered by then |
| Cancellation.ServeJobs | src/blocking_handler.rs:209-235 | the same for every job of a sequence, each against the memory the cancels so far left |
| CancellationRuns.StepKeepsInv | src/blocking_handler.rs:98-152 | every atomic access of cancellers, workers and polls keeps the cached generations sound |
| CancellationRuns.CancelledPollAnswersTrue | src/blocking_handler.rs:138-152 | over every run, a poll that began after a cancel of its id took effect, with the id remembered since, answers true |
| CancellationRuns.PollAfterCancelAnswersTrue | src/blocking_handler.rs:98-152 | the same without bookkeeping: if a poll begins in any reachable state with no cancel under way and its id remembered, and the id stays remembered until it returned, that context was answered, and only with true |
| CancellationRuns.IntakeLoadsBeforeItChecks | src/blocking_handler.rs:209-235 | whatever happens between a worker's load and its check, a job runs exactly if it is not remembered at the check, and starts from the generation loaded before |
| CancellationRuns.PollInsideCancelAnswersFalse | src/blocking_handler.rs:98-152 | a run in which a poll between a cancel's insert and its generation bump answers false with the id remembered |
| CancellationRuns.TrueIsPermanent | src/blocking_handler.rs:136-152 | over every run, once true always true, also after the id is forgotten |
| CancellationRuns.TrueOnlyIfCancelled | src/blocking_handler.rs:136-152 | over every run, with any number of threads polling a context, true is answered only for an id somebody cancelled |
| CancellationRuns.TwoPollersLoseTheLatch | src/blocking_handler.rs:138-152 | a run with two threads polling one context answers false after true with the id remembered throughout |
| CancellationSteps.CancelTakes | src/blocking_handler.rs:99-113 | a cancel on the state is the insert, bump and return steps of the runs |
| CancellationSteps.IntakeTakes | src/blocking_handler.rs:209-235 | a worker's intake is the load and check steps of the runs |
| CancellationSteps.PollTakes | src/blocking_handler.rs:138-152 | a poll of a context is a legal run of its atomic accesses with the same answer, cached generation and latch |
| SendBatch.WindowHolds | src/traits.rs:883-893 | in every schedule the window allows, in-flight sends stay within it, each send completes at most once, and the k-th completion is among the first k + window |
| SendBatch.EveryOrderInTheWindowHappens | src/traits.rs:883-893 | conversely every order of distinct sends whose k-th completion is among the first k + window can happen |
| SendBatch.FromFailures | src/outcomes.rs:47-56 | all acked exactly without failures, otherwise the failures and no responses |
| SendBatch.AllAckedExactly | src/traits.rs:915-926 | the report is all acked exactly when every send was acked, and never carries an empty list of responses |
| SendBatch.OrderedSendsDoNotOverlap | src/traits.rs:865-893 | with an ordered publisher each send completes before the next starts |
| SendBatch.TaggedResponsesAre | src/traits.rs:895-908 | the report's responses are exactly the responding positions, ascending |
| SendBatch.TaggedFailuresAre | src/traits.rs:895-913 | the report's failures are exactly the failing positions with their own message and error, ascending |
| SendBatch.EveryMessageOnce | src/traits.rs:895-926 | every message is in exactly one of the reported responses, the acks or the reported failures, at one index of its own and in input order |
| SendBatch.CollectResults | src/traits.rs:895-905 | the loop collects exactly the tagged outcomes of the completed sends, whatever their order |
| SendBatch.SortedIsInputOrder | src/traits.rs:907-913 | sorting by index restores the one input order from any completion order |
| SendBatch.SendBatchHelper | src/traits.rs:867-927 | for every permitted schedule of up to 128 sends in flight, or one if ordered, the result is the same report in input order; all acked exactly when every send was |
| Dispatch.HandleMany | src/traits.rs:107-134 | own answers up to the first retryable or connection failure, that failure's class and its abort text for all later messages, and how many were handled |
| Dispatch.DefaultAbortsTogether | src/traits.rs:100-134 | for every handler and batch, after a transient failure all later results fail with its class |
| Dispatch.NothingHandledAfter | src/traits.rs:100-134 | for every handler and batch, what the handler would answer behind the first transient failure makes no difference |
| Dispatch.PreparedIs | src/command_handler.rs:22-56 | a published response has the original's id and the handler's payload and metadata; correlation id and source position are filled in only if the handler set none |
| Dispatch.PublishedKeepIds | src/command_handler.rs:140-164 | one message per published position, in input order, under the id it answers |
| Dispatch.CommandSendBatch | src/command_handler.rs:114-183 | what is published in one call and what is reported, for both passthroughs, a wrong result count, nothing to publish and every inner answer: the handler's failures in front of the inner ones, the inner responses unchanged |
| Dispatch.DefaultAccounts | src/command_handler.rs:114-183 | for every handler and batch, each position is exactly one of acked, answered by the published message at its own index under its own id, or failed at its own index; nothing unhandled is acked or published |
| Dispatch.CommandSendDefault | src/command_handler.rs:114-183 | the same of the real outputs of default handling followed by the command publisher, with the failures and responses reported for every inner answer |
| Dispatch.EventSendBatch | src/event_handler.rs:45-97 | reported are, and only are, the own failures up to the first transient one and everything from there on with its class; all acked exactly without a failure |
| Dispatch.EventFailuresAre | src/event_handler.rs:61-96 | each of the event publisher's failures is the message at its position, with its own error up to the first transient failure and with that one's class behind it |
| Dispatch.PublishersAgreeExactly | src/event_handler.rs:61-96 | command and event publisher fail the same positions exactly when nothing behind the first transient failure succeeded |
| Dispatch.DefaultHandlingAgrees | src/event_handler.rs:61-96 | for every handler and batch with the default handling, both publishers fail the same messages in the same order with the same class |
| TypeDispatch.RunsKeepOrder | src/type_handler.rs:196-225 | flattened, the runs are exactly the routable positions in input order |
| TypeDispatch.RunsAreOk | src/type_handler.rs:211-218 | each run has one target and neighbouring runs differ |
| TypeDispatch.RunsAscend | src/type_handler.rs:196-225 | indices grow within and across runs, so no slot belongs to two |
| TypeDispatch.AnsweredIsTotal | src/type_handler.rs:274-283 | every slot is filled, so the missing-result fallback is unreachable |
| TypeDispatch.RunsEqualPerMessage | src/type_handler.rs:168-284 | with pointwise batch forms dispatch by runs equals dispatch per message |
| TypeDispatch.PerMessageAnswers | src/type_handler.rs:168-284 | with pointwise batch forms the per-message results are a possible outcome of dispatch by runs |
| TypeDispatch.AbortsTogetherExactly | src/type_handler.rs:227-272 | whatever handlers that abort together stand behind a routing, the dispatched batch aborts together, if and only if from the first routable message on all messages have one target |
| TypeDispatch.OneTargetIsOneRun | src/type_handler.rs:196-225 | that condition means at most one run with every unroutable message in front of it |
| TypeDispatch.RunsDoNotAbortTogether | src/type_handler.rs:227-272 | any two registered types in one batch: a retryable failure of the first does not stop the second |
| TypeDispatch.HandleMany | src/type_handler.rs:185-284 | as many results as messages, each slot filled from its own message's run; with pointwise batch forms the answer of the handler registered for the message's type, else of the fallback, else a non-retryable failure |
| TypeDispatch.DispatchRuns | src/type_handler.rs:227-272 | every run's slots hold that run's answers, slots nobody runs for stay |
| TypeDispatch.DispatchRun | src/type_handler.rs:228-271 | one run's answers go to its own slots, a wrong count fails exactly those slots, other slots stay |
| AmqpReconnect.StepKeepsInv | src/endpoints/amqp.rs:257-286 | every step keeps worker views consistent with the generations they were fetched under |
| AmqpReconnect.EachGenerationReplacedOnce | src/endpoints/amqp.rs:262-286 | over every interleaving, up to 2^64 reconnects, the k-th replacement replaces the k-th channel on request of a worker that held it |
| AmqpReconnect.FailedConnectIsRetryable | src/endpoints/amqp.rs:282-284 | a failed connect leaves the state as it was, and any idle worker can fetch, fail and replace it |
| AmqpReconnect.AmqpPublisher.Reconnect | src/endpoints/amqp.rs:268-286 | replaces only the observed generation and only after a successful connect, which counts the generation modulo 2^64 |
| AmqpReconnect.FetchTakes | src/endpoints/amqp.rs:257-260 | fetching the channel is the fetch step of the runs |
| AmqpReconnect.ReconnectTakes | src/endpoints/amqp.rs:262-286 | a reconnect is the enter step, and the finish step if the generation still matched |
| AmqpHeaders.AmqpKeysAreSeparate | src/endpoints/amqp.rs:91-113 | the native names and the source positions do not clash |
| AmqpHeaders.PublishProperties | src/endpoints/amqp.rs:83-126 | the properties that go on the wire: fitting native values, the id, and headers only for a message with metadata |
| AmqpHeaders.HeaderTable | src/endpoints/amqp.rs:106-122 | exactly the metadata that is neither native nor a source position and whose name fits |
| AmqpHeaders.DeliveryToMessage | src/endpoints/amqp.rs:752-827 | the message a delivery becomes: payload, the parsed id or a fresh one, native properties and headers under their names, and routing key, exchange and delivery tag under theirs if enabled |
| AmqpHeaders.InsertHeaders | src/endpoints/amqp.rs:798-825 | supported header values are taken over, source positions from the wire never are |
| AmqpHeaders.WireCarriesSurvivors | src/endpoints/amqp.rs:83-827 | native properties and headers together carry exactly the surviving pairs |
| AmqpHeaders.RoundTrip | src/endpoints/amqp.rs:83-827 | publish then consume gives back payload, id and exactly the surviving metadata, over the wire id and the enabled source position |
| AmqpHeaders.RoundTripPerKey | src/endpoints/amqp.rs:83-827 | per key: survivors unchanged, source positions never from the sender, nothing else added |
| AmqpHeaders.PlainPairsComeBack | src/endpoints/amqp.rs:67-122 | a pair of ASCII text under a key that is no source position comes back exactly if its value (for a native name) or its key (for any other) has at most 255 characters |
| AmqpHeaders.WideCharacters | src/endpoints/amqp.rs:67-80 | the length that counts is in UTF-8 bytes: one, two, three or four per character, at the exact limits |

## Left out

- EventStore.EventStore.Append: requires the next offset to stay below 2^64 - 1; the wrap-around of a full offset counter is not modelled.
- EventStore.EventStore.AppendBatch: the same bound on the next offset.
- EventStore.EventStoreConsumer.ReceiveBatch: undisturbed only; interference between its steps is the subject of the runs.
- EventStore.EventStore.Unread: reads its three counters at one instant.
- DeferredCommits.DeferredCommits.Settle: requires a delivery in flight, as the handle that `track` returns guarantees; the handle itself is not modelled.
- AmqpReconnect.EachGenerationReplacedOnce: says nothing after the 64-bit generation counter has wrapped around.
- CancellationRuns.CancelledPollAnswersTrue: the generation is unbounded; a wrap of the 64-bit counter between two polls is not modelled.
- AmqpHeaders.RoundTrip: the id comes back if its text form parses back, which is assumed of the UUID library.
- AmqpHeaders.PlainPairsComeBack: leaves out the key of the message id, under which the wire id comes back (`RoundTripPerKey`).
- EventSteps.CommitTakes: commits the oldest outstanding batch; like all methods of layer 4 it is a call nothing else interferes with. Interleaved calls are runs only.
- DeferredSteps.DeliverTakes: one source batch per delivery; the refill loop's deliveries of several are runs only.
- CheckpointSteps.UpdateTakes: no other updater is at work on that path.
- An ack's epoch check and its frontier update are one step of the event store runs; with in-order commits nothing of that consumer changes the epoch in between.
- A single receive of the deduplication while an earlier emptied batch is still held, which it does not take.
- Waiting and wakeups (the watch channel, drain timeouts) and all liveness.
- Drop callbacks and when they run.
- Weak memory orders: every atomic access is one sequentially consistent step.
- Two consumers under one subscriber id.
- An update cancelled between its steps by dropping its future, power loss and two processes on one checkpoint file.
- What the filter and deduplication middlewares decide about messages, and the commit of the empty batch that ends a drain. Their calls of the deferred commits (take, count, hold, flush, inline commit, a receive failing after it collected something) are steps of the runs.
- `take_shared` on disconnect, and runs on an unordered source (its only path is in `Hold`).
- The sequencer's buffering of commits that arrive early: the runs start from its ordered output.
- The SQL, MongoDB and object-store checkpoint backends, meta table names and their hash.
- The event publisher's and command publisher's single `send`, which is the batch of one without accounting.
- State in batch handlers of the dispatch by type: a batch form is a function of its messages.
- JSON, UUID and number formatting: functions given as parameters. Error texts that print counts or types are abbreviated.
- Connections, TLS, publisher confirms and broker behaviour of AMQP: every connect may succeed or fail.
- Configuration, registries, schemas, the poll backoff and the shutdown latch, language bindings.
