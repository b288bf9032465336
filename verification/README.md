# Looms: a verified model

Looms is an event-sourced execution engine. A run is an append-only log, its state is a fold of that
log, and everything else (stores, projectors, queues, subscriptions, caches) exists to keep logs,
deliver them and show them. This project models the parts whose correctness is hardest to see and
proves what they promise. Run `dafny verify dfyconfig.toml` with Dafny 4.11 to check it.

## What is modelled

**The run fold** (`Events`, `Fold`, `FoldLoops`, `FoldIdentity`, `FoldThreads`). `FoldEvent` follows
the source's protocol case by case over threads, waits, outstanding and completed effects, execution
records, launched runs and child closing. Thread definitions are arbitrary functions (`initialState`,
`step`, `effects`) in a registry. An effect id is either stable (thread and name) or positional
(thread, sequence number, index). The identity results need two things: within one thread kind an
effect type always names itself or never does, with different names within one `effects()` list; and a
thread id that is started again keeps its kind. `MixedNamingDuplicates` and `RestartedKindDuplicates`
show what goes wrong without the first and without the second.

**What is built on the fold** (`Snapshots`, `Replay`, `Fork`, `Waits`, `Cancellation`,
`CancellationFold`): recovery from snapshots over trimmed logs, the incremental cursor, time travel,
forking at the origin of a failure, the waits that a batch of events satisfies, and cancelling a
subtree of threads.

**Blobs** (`BlobStore`, `Blobs`, `BlobOffload`). The mark-and-collect protocol is a state machine
whose steps are single byte operations; any number of runs and collectors interleave, with one writer
per run and no failed operation inside `replaceRefs`. A collector that has taken a body out puts it
back when it finds it referenced, so between those steps a retained body is in that collector's hands
instead of in place. A retain passes over digests that the run already lists without looking for their
bodies. `RetryWithoutPutIsUnsafe` is the run in which that loses a body that had been put; which digests
a retain is good for, exactly, is `RetainKeepsRecoverableIff`. Append meets the condition: it reads every
digest while expanding it, before it retains.

Claim checks are a recursive transformation of JSON, and the reachable digests are computed by a
worklist. What the round trips suppose of the codec and the digest, they suppose of the values and
bodies in play only: the ones the value's own offloading stores and, over a run of the log, the ones
anybody stored. `BlobOffload` puts offloading and references together for the log and the latest
snapshot of one run, with other runs and collectors taking bodies out, holding them and putting them
back in between. An append, a snapshot or a release fails when a body that it reads is out.

**Stores, delivery and the run index** (`EventStore`, `Delivery`, `DeliveryProtocol`, `DeliveryRuns`,
`RunIndex`).
SQL tables are maps on their primary keys and each statement's `ON CONFLICT` clause is taken
literally. The memory store and the SQLite store are classes proved against one specification each,
and the specifications are proved to agree. Delivery is proved twice: the loop over a fixed log, and
the interleaving of many deliveries with crashes, appends, requeues and guarded trims.

**Queues and streams** (`Coalesce`, `MemoryQueue`, `Subscription`). In `Coalesce` every stretch of
code between two suspension points is one step. Under that interleaving a finishing worker can evict
the key's state while a second one is still about to resolve its deferred, so an awaited deferred is
resolved, or some worker is still bound to resolve it. It need not be the key's current one, as the run
of `AwaitedOfAnEvictedKey` shows; `AwaitedIsCurrentIff` says exactly when it is. In `Subscription` a connection may drop at any moment
with frames in flight; a resync frame starts the count anew, and without one the start never moves.

**The agent session and incremental views** (`AgentSession`, `LiveFold`, `EventIndex`). The session
is closed into a loop with its own enabled effects and a child that reports which of the messages it
was given it consumed. Order and steering hold over every such run; that every message is in one place
needs that nothing already closed, absorbed, held or in its own turn is steered again into the child.

Where the code and the prose around it differ, the model follows the code:

- `fork.ts` takes the recorded `resumeSeq` of a cancellation as given. At or past the event's own
  sequence number it copies the ending too: the forked root is live if and only if the recorded start
  is earlier (`Fork.ForkIsLiveIff`), and `Fork.ForkOfLateResumeStaysEnded` is a log where it is not.
- The note above `retain` (`packages/core/src/blob-store.ts:120-122`) says a failed append's retry
  uploads the body again. `retain` alone does not require that (`BlobStore.RetryWithoutPutIsUnsafe`).
- A requeue does not start the count of attempts again if some delivery of the projector, whose batch is
  not yet accepted, holds a positive count, for it writes its own copy back
  (`DeliveryRuns.RequeueDuringDeliveryIsForgotten`). Otherwise it does: that is the exact condition
  (`DeliveryProtocol.RequeueCountsFromZeroIff`). With such requeues only, a projector is a dead letter
  exactly when its failures since the last acceptance, rewind or requeue reach the limit.
- With several hosts a failure can be recorded on top of attempts that another host's delivery has
  meanwhile forgotten (`DeliveryRuns.StaleFailureDeadLetters`); attempts are honest throughout a run
  exactly when that does not happen (`DeliveryProtocol.CountedIffNeverStale`).
- A message that is not pending and is submitted again as a steer at the running child is counted
  twice when that turn ends (`AgentSession.ResubmittedSteerIsInTwoPlaces`); the exact condition is
  `AgentSession.ConservedIffConsumedPending`.
- Trimming past `tail + 1` makes the two event stores answer differently
  (`EventStore.TrimAgreesIffWithinLog`).
- The batched run-index write differs from the fold exactly when, for some run, a start after the first
  of the batch supplies a column or attribute that the row and the first start leave empty, or a touch
  that precedes an absent run's first start or finish is later than everything after it
  (`RunIndex.BatchEqualsFoldIff`, `RunIndex.SecondStartIsLostIffItAdds`).

## Model

| member | source | states |
|---|---|---|
| FoldIdentity.OutstandingIdsUnique | packages/core/src/fold.ts:673-741 | after any log with increasing sequence numbers and disciplined kinds that restarted threads keep, no effect id is outstanding twice and none is both outstanding and completed |
| FoldIdentity.CompletedStaysCompleted | packages/core/src/fold.ts:84-93 | in a kind that keeps completed ids, a completed effect of a thread that keeps its kind is never outstanding again, over any further log |
| FoldIdentity.PositionalIdNeverReturns | packages/core/src/fold.ts:701-711 | a positional id that has left the outstanding list never comes back, even in kinds that forget |
| FoldIdentity.MixedNamingDuplicates | packages/core/src/fold.ts:686-688 | a type both named and unnamed yields two outstanding items with one id |
| FoldIdentity.RestartedKindDuplicates | packages/core/src/fold.ts:189-235 | a thread id started again under another kind, both kinds disciplined, has two outstanding items with one id |
| FoldThreads.WaitingIffOwnsWait | packages/core/src/fold.ts:467-539 | after any orderly log a live thread is waiting exactly when it owns an open wait |
| FoldThreads.TerminalThreadStays | packages/core/src/fold.ts:743-763 | over any log that starts each thread once, a terminal thread stays terminal, its local state never changes, and it gains no outstanding effect |
| FoldThreads.DeadThreadNeverOwnsAgain | packages/core/src/fold.ts:258-302 | over any log that starts each thread once, a failed or cancelled thread owns no outstanding effect, then or ever after |
| FoldLoops.MapEffectsBySplicing | packages/core/src/fold.ts:673-713 | splicing matches out of a shrinking list computes the matching that the identity results are about |
| FoldLoops.KeepOtherWaits | packages/core/src/fold.ts:118-125 | copying waits one by one keeps exactly the other threads' |
| FoldLoops.RemoveRace | packages/core/src/fold.ts:502-524 | the satisfied wait and each sibling of its race are removed, and nothing else |
| FoldLoops.FoldedWaitsAreNamed | packages/core/src/fold.ts:467-500 | in every folded state each wait is kept under its own id, as the race loop relies on |
| FoldLoops.FoldAll | packages/core/src/fold.ts:891-898 | reducing event by event is the fold of the whole log |
| Snapshots.SnapshotRecovers | packages/core/src/snapshots.ts:89-117 | folding from the last marker of a log trimmed at or before its covered seq + 1 gives the fold of the full log, when the covered state survives its encoding |
| Snapshots.BuiltMarkerCovers | packages/core/src/snapshots.ts:63-87 | the built marker carries its covered state exactly when that fits the inline limit |
| Snapshots.BareMarkerLosesTrimmedHistory | packages/core/src/snapshots.ts:89-117 | a marker without its state does not recover a trimmed log |
| Snapshots.AdvanceCursor | packages/core/src/cursor.ts:24-50 | the loop over a batch advances state, seq and counter as one event at a time does |
| Snapshots.CursorIncremental | packages/core/src/cursor.ts:24-50 | advancing in batches gives what one pass gives |
| Snapshots.CursorStateIsFold | packages/core/src/cursor.ts:24-50 | the cursor's state is the fold of the log so far |
| Snapshots.SnapshotDueAgrees | packages/core/src/snapshots.ts:24-37 | the running counter and the scan of the log agree on when a snapshot is due |
| Replay.ReplayAll | packages/core/src/replay.ts:47-69 | the loop records, for each event, the states around it and the effects it left outstanding |
| Replay.ReplayToIsStepOfReplayAll | packages/core/src/replay.ts:24-46 | jumping to a seq gives the step that a full replay records there, or nothing |
| Fork.ScanSource | packages/core/src/fork.ts:69-99 | one pass finds the cut, the first failures and the effects of the source run |
| Fork.FailureOrigin | packages/core/src/fork.ts:101-135 | the cause walk stops, at the origin its recursive description gives |
| Fork.OriginIsNearestRetryable | packages/core/src/fork.ts:101-135 | the origin is the nearest retryable cause behind the failure, or the failure itself when none is |
| Fork.ForkResumesAtCut | packages/core/src/fork.ts:159-209 | folding a fork's history gives the source's threads, waits, outstanding effects with their ids, completed ids and child runs at the cut, with no attempt under way |
| Fork.ForkIsFullHistory | packages/core/src/fork.ts:159-209 | a fork is numbered 1 to n, and can be forked itself, exactly when its cut lies in the source |
| Fork.ForkIsLive | packages/core/src/fork.ts:49-99 | when a recorded resume seq precedes its event, the fork is a full history and its root has not ended |
| Fork.ForkIsLiveIff | packages/core/src/fork.ts:49-99 | on logs that start the run and each thread once the forked root is live exactly when the cancellation that ended it recorded no start or one before itself, negative ones counted from the end of the log |
| Fork.LateResumeKeepsTheEnd | packages/core/src/fork.ts:55-67 | a resume seq at or past its event, however far past, copies the ending, and nothing copied after it revives the root |
| Fork.ForkOfLateResumeStaysEnded | packages/core/src/fork.ts:55-67 | a log of a start and a cancellation whose fork is planned and whose forked root has ended |
| Fork.ForkElidesReissuedStreams | packages/core/src/fork.ts:137-157 | a fork elides exactly the streamed events of effects outstanding at its cut, and keeps every event's seq and durability |
| Cancellation.Descends | packages/core/src/state.ts:272-288 | the walk up the parents stops, and finds the target exactly when the walk meets it |
| Cancellation.DescendantsAreExactlyTheSubtree | packages/core/src/state.ts:272-288 | the descendants are exactly the threads with a chain of parents to the target |
| Waits.SatisfyWaits | packages/runtime/src/helpers.ts:406-434 | the loops produce the wait-satisfied events by taking each event's matches out of the waits that remain |
| Waits.AnsweredByTheFirst | packages/runtime/src/helpers.ts:406-434 | a wait is answered if and only if one of the events is what it is for, and then by the first such event |
| Waits.NoWaitAnsweredTwice | packages/runtime/src/helpers.ts:406-434 | no wait is answered twice |
| Cancellation.PlanCancellation | packages/runtime/src/cancellation.ts:68-137 | the loop plans one event for each effect to settle, then the threads' ends, then the waits these satisfy, and asks exactly the workers that were handed work |
| CancellationFold.ChildrenEndBeforeParents | packages/runtime/src/cancellation.ts:106-131 | each thread's cancellation precedes its parent's |
| CancellationFold.CancellationEndsTheSubtree | packages/runtime/src/cancellation.ts:68-137 | folding the whole plan, with whatever ids, numbers and times its events are appended, leaves every live thread of the subtree cancelled with no waits and no outstanding effects; outside, only threads whose waits the plan satisfies move, and exactly those waits and their races end |
| CancellationFold.NestedLogsAreSound | packages/core/src/fold.ts:189-235 | logs in which each thread starts once, after its parent, reach only states that can be cancelled so |
| BlobStore.RetainedBodyStays | packages/core/src/blob-store.ts:119-152 | after a successful retain of a digest that was put, read, checked or secured, until the run drops it, the body is present and intact or a collector holds it, under every interleaving |
| BlobStore.HolderRestores | packages/core/src/blob-store.ts:180-200 | a collector holding a referenced body puts it back intact in at most two of its steps |
| BlobStore.UnreferencedBodyGoes | packages/core/src/blob-store.ts:180-200 | a collector left alone deletes an unreferenced body for good |
| BlobStore.RetainKeepsRecoverableIff | packages/core/src/blob-store.ts:119-152 | after a successful retain, first or retried, and until the run drops the digest or somebody stores it again, the body stays in place or copied if and only if it is so as the retain succeeds; what an earlier retain secured is |
| BlobStore.FailedRetainSecuresWhatItMet | packages/core/src/blob-store.ts:130-152 | a retain that fails on one digest has still secured those that met their check |
| BlobStore.RetryWithoutPutIsUnsafe | packages/core/src/blob-store.ts:119-152 | a body is put, collected, and missed by a retain that fails; trying that again succeeds with the body gone |
| BlobStore.StepKeepsInv | packages/core/src/blob-store.ts:73-200 | every byte operation keeps references, lists and bodies consistent for every run |
| Blobs.OffloadThenResolve | packages/core/src/blobs.ts:149-277 | offloading and then resolving from a store of the value's parts is the identity on values without the reserved shape, for every threshold |
| Blobs.PayloadRoundTrip | packages/core/src/blob-offload.ts:122-141 | so is it when the whole payload is claimed on top of nested references |
| Blobs.RoundTripIffClaimFree | packages/core/src/blobs.ts:31-50 | the reserved shape is exactly what the round trip excludes |
| Blobs.HypothesesAreMet | packages/core/src/blobs.ts:149-277 | a codec, a store and a value with two moved strings that meet what the round trips suppose |
| Blobs.OffloadKeepsShape | packages/core/src/blobs.ts:172-193 | offloading children never turns a caller's object into a reference |
| Blobs.ExpandBlobDigests | packages/core/src/blobs.ts:89-125 | the worklist stops on every finite graph, cyclic or not, with exactly the reachable digests, and fails exactly when one of them cannot be loaded |
| Blobs.ResolveReadsReachable | packages/core/src/blobs.ts:227-277 | resolution depends only on the bodies a value reaches |
| BlobOffload.ReleaseKeepsExactlyReachable | packages/core/src/blob-offload.ts:164-190 | a release keeps exactly the digests that retained events and the latest snapshot reach |
| BlobOffload.RetainedEventsResolve | packages/core/src/blob-offload.ts:53-101 | after any appends, refused and failed ones too, snapshots, trims and releases, every retained event and the latest snapshot resolve to what the caller gave from the bodies in place or held by collectors |
| BlobOffload.ResolvesInPlaceIffNothingOut | packages/core/src/blobs.ts:227-277 | a retained event resolves from the bodies in place alone exactly when none that it reaches is out |
| BlobOffload.RunIsPossible | packages/core/src/blob-offload.ts:53-101 | an append that moves its string is a run that meets what these results suppose |
| EventStore.MemoryStore.Append | packages/core/src/store.ts:359-468 | the memory append's whole effect and answer: replay, conflict, fencing, numbering, commit |
| EventStore.MemoryStore.Trim | packages/core/src/store.ts:504-522 | every read of the run is as if from the trim's number on, the head never falls, and tail, fence, commands and other runs are as they were |
| EventStore.MemoryTrimReads | packages/core/src/store.ts:504-522 | reading after a trim is reading before it from the later of the two numbers; other runs read the same |
| EventStore.SqliteStore.Append | packages/core/src/sqlite-store.ts:432-545 | the transaction's whole effect and answer, rolled back when refused |
| EventStore.SqliteStore.Trim | packages/core/src/sqlite-store.ts:584-595 | the same of the tables: reads, heads, and nothing else changed |
| EventStore.SqlTrimReads | packages/core/src/sqlite-store.ts:584-595 | reading after a trim is reading before it from the later of the two numbers; other runs read the same |
| EventStore.StoresAgree | packages/core/src/sqlite-store.ts:432-595 | both stores answer every operation of every sequence of non-empty appends, reads and trims within the log alike |
| EventStore.RetainedInOrder | packages/core/src/store.ts:411-438 | retained events are strictly increasing between head and tail |
| EventStore.TrimAgreesIffWithinLog | packages/core/src/store.ts:504-522 | after a trim and an append the stores read alike exactly when the trim stayed within the log |
| EventStore.KeyCommitsOnce | packages/core/src/store.ts:376-393 | an idempotency key commits at most one batch |
| EventStore.SameExpectedTailCommitsOnce | packages/core/src/store.ts:395-397 | two appends that expect the same tail cannot both succeed |
| Delivery.DeliverProjector | packages/projectors/src/delivery.ts:231-337 | over a fixed log the loop stops; the accepted batches are, without a gap, the events from the cursor, or from the projector's own position if that is behind it, to the new cursor; a failure names the first event not projected, or the one after the cursor when the projector could not start |
| Delivery.RetryDelayDoublesToCap | packages/projectors/src/delivery.ts:198-203 | the retry delay doubles until it reaches the cap and never passes it |
| Delivery.RecordedFailure | packages/projectors/src/sqlite-delivery.ts:150-174 | a failure above the cursor is recorded with one more attempt, dead-lettered exactly at the limit, and retried within the cap |
| DeliveryProtocol.DeliveryNeverSkips | packages/projectors/src/delivery.ts:290-323 | with any crashes, hosts, requeues, rewinds and guarded trims, every event at or below a cursor, or gone from the log, was in an accepted batch |
| DeliveryProtocol.TrimKeepsLog | packages/core/src/store.ts:128-149 | a trim that projector cursors cover removes only events every projector has accepted |
| DeliveryProtocol.CountedIffNeverStale | packages/projectors/src/delivery.ts:198-229 | with any number of hosts, throughout a run every row's attempts are failures since its last acceptance or rewind if and only if no failure past the cursor is recorded on top of more |
| DeliveryProtocol.DeadLetterOnlyAfterMaxAttempts | packages/projectors/src/delivery.ts:198-229 | with one delivery at a time, or no stale failure, whatever requeues there are, a projector is dead-lettered only after the limit of failed deliveries with no accepted batch between them |
| DeliveryProtocol.DeadLetterIffMaxAttempts | packages/projectors/src/delivery.ts:198-229 | with one delivery at a time and only harmless requeues, attempts are exactly the failures since the last acceptance, rewind or requeue, and a projector is a dead letter exactly when they reach the limit |
| DeliveryProtocol.RequeueCountsFromZeroIff | packages/projectors/src/sqlite-delivery.ts:175-187 | in a reachable state with exact counts, a requeue counts from zero in every continuation with harmless requeues if and only if no delivery of the projector short of acceptance holds a positive count |
| DeliveryRuns.RequeueDuringDeliveryIsForgotten | packages/projectors/src/delivery.ts:198-229 | a run of one host in which a requeue lands during a delivery and one failure after it is the dead-letter |
| DeliveryRuns.StaleFailureDeadLetters | packages/projectors/src/delivery.ts:231-337 | a run of two hosts in which one failure since a rewind is the dead-letter, with a limit of two |
| RunIndex.RunIndexPatches | packages/projectors/src/event-log.ts:273-304 | one pass builds each run's patch from its own operations |
| RunIndex.BatchEqualsFoldIff | packages/projectors/src/event-log.ts:315-436 | for every batch and run, the batched write equals the fold exactly when no later start supplies what the row and the first start lack, and no early touch outlasts the rest |
| RunIndex.BatchEqualsFold | packages/projectors/src/event-log.ts:141-226 | when that holds of every run, the whole table after a batch is the table after its operations one by one |
| RunIndex.ReapplyingChangesNothing | packages/projectors/src/event-log.ts:390-449 | writing a batch again changes nothing |
| RunIndex.BatchingDoesNotMatter | packages/projectors/src/event-log.ts:238-248 | however a log is cut into batches, the index ends the same |
| RunIndex.RebuildChangesNothing | packages/projectors/src/event-log.ts:108-139 | a rebuild in batches of any size leaves an up-to-date index as it is |
| RunIndex.SecondStartIsLostIffItAdds | packages/projectors/src/event-log.ts:291-293 | two starts in one batch: fold and batch agree exactly when the second adds no column or attribute |
| Coalesce.OneFlushAtATime | packages/core/src/coalesce.ts:91-110 | at most one flush of a key is in flight |
| Coalesce.FlushedIsPrefix | packages/core/src/coalesce.ts:115-162 | what was flushed is a prefix of what was accepted, nothing of a healthy key is lost, and a filled buffer has a worker coming |
| Coalesce.DrainedMeansFlushed | packages/core/src/coalesce.ts:234-260 | a drain that returns with the key healthy means everything accepted was flushed |
| Coalesce.AwaitedIsResolvedOrPromised | packages/core/src/coalesce.ts:51-62 | an awaited deferred is resolved, or a live worker is bound to resolve it |
| Coalesce.AwaitedIsCurrentIff | packages/core/src/coalesce.ts:51-162 | after any run an awaited deferred is resolved or the key's current one if and only if no worker is about to resolve it, having swapped it out or still holding an evicted state |
| Coalesce.AwaitedOfAnEvictedKey | packages/core/src/coalesce.ts:91-162 | a run after which a drain waits for a deferred of a state object that is no longer in the map |
| Coalesce.PoisonIsForever | packages/core/src/coalesce.ts:131-143 | a poisoned key accepts and flushes nothing more |
| MemoryQueue.MemoryQueue.SettleAt | packages/cloudflare/src/memory-queue.ts:35-52 | acks filter the entries, each retry gives one lease back |
| MemoryQueue.MemoryQueue.PullBatch | packages/cloudflare/src/memory-queue.ts:54-75 | a pull moves exhausted entries to the dead letters and leases the visible ones |
| MemoryQueue.LeaseVisible | packages/cloudflare/src/memory-queue.ts:62-72 | the leasing loop takes the first visible entries, each under a fresh lease |
| MemoryQueue.MessagesConserved | packages/cloudflare/src/memory-queue.ts:29-75 | every message is in exactly one of held, acked and dead; none is handed out more than maxRetries + 1 times, a dead one exactly so often |
| MemoryQueue.LeaseEndsIff | packages/cloudflare/src/memory-queue.ts:35-75 | an operation supersedes a held lease if and only if it acks it, gives it back, or buries or re-leases its message |
| MemoryQueue.SupersededLeaseIsInert | packages/cloudflare/src/memory-queue.ts:35-52 | ever after, a settle that names a superseded lease, among any others, does what it does without it |
| MemoryQueue.UnexpiredLeaseIsNotReissued | packages/cloudflare/src/memory-queue.ts:54-72 | a leased message nobody settles is not handed out again before its lease expires |
| Subscription.PushSubscriptionEvents | packages/core/src/subscription.ts:281-325 | one walk advances the cursor and collects the matching events past it |
| Subscription.DeliverBatch | packages/client/src/client.ts:632-647 | the client takes the events at or after where it stands, and stands after the last |
| Subscription.ResumesWhereClientStands | packages/core/src/subscription.ts:161-190 | over either transport the server starts where the client stands |
| Subscription.ReceivedExactlyOnceInOrder | packages/client/src/client.ts:190-273 | across any disconnects the client has received exactly the matching events from its start to its cursor, once and in order |
| Subscription.QuietMeansCaughtUp | packages/core/src/subscription.ts:327-367 | when everything is pushed and taken, no matching event is missing |
| Subscription.WithoutResyncNothingIsMissed | packages/client/src/client.ts:190-273 | a client never told to resync holds every matching event below its position, from the first of the run on |
| AgentSession.Effects | packages/agent/src/agent-session.ts:261-385 | the loops push exactly the enabled effects, in order |
| AgentSession.EveryMessageInOnePlace | packages/agent/src/agent-session.ts:105-260 | over every run without an improper steer, every accepted message is in exactly one of pending, held, active, absorbed, awaiting closure and closed |
| AgentSession.SteersNeverStick | packages/agent/src/agent-session.ts:144-149 | over every run, a steered message names the running turn; without one the head of the queue is enabled to start |
| AgentSession.AdmittedInSubmissionOrder | packages/agent/src/agent-session.ts:344-364 | over every run, turns are admitted in the order their messages were submitted |
| AgentSession.ConservedIffConsumedPending | packages/agent/src/agent-session.ts:219-255 | over every run, messages are conserved throughout exactly when each turn that ended consumed pending messages only |
| AgentSession.EndConservesIffConsumedPending | packages/agent/src/agent-session.ts:219-255 | ending a turn conserves messages exactly when everything its child consumed was pending |
| AgentSession.ResubmittedSteerIsInTwoPlaces | packages/agent/src/signals.ts:120-146 | from a session's start: a turn, a message held for the next, the same message steered at the child, and the turn's end leave it in two places |
| LiveFold.DropSupersededAttempts | packages/core/src/attempts.ts:21-42 | the two passes keep exactly the events no later retry supersedes |
| LiveFold.DropIsOnline | packages/core/src/attempts.ts:21-42 | dropping superseded attempts equals taking them back as each retry arrives |
| LiveFold.FoldAppend | packages/react/src/derived.ts:54-78 | a batch without retries can be folded onto the cached state |
| LiveFold.ProjectionCache.Fold | packages/react/src/derived.ts:83-121 | on a growing list the cache returns the fold of the whole list |
| EventIndex.EventIndex.Append | packages/core/src/event-index.ts:23-50 | appending keeps every index a scan of the log |
| EventIndex.EventIndex.Publish | packages/core/src/event-index.ts:52-69 | publishing brings every snapshot up to its live index |
| EventIndex.EventIndex.GetByThread | packages/core/src/event-index.ts:76-79 | the events of a thread are the log filtered by it |
| EventIndex.EventIndex.GetCounts | packages/core/src/event-index.ts:71-74 | each thread's count is the number of its events, and only threads with events have one |
| EventIndex.EventIndex.GetBySeq | packages/core/src/event-index.ts:81-83 | the last appended event with the number |
| EventIndex.LastBySeq | packages/core/src/event-index.ts:29-29 | in a log with increasing numbers that is the event with the number |

## Left out

- JSON numbers other than integers, the key order of objects, and Unicode: JSON values are a datatype
  with integer numbers and objects as maps.
- Effect ids as text: an id is a datatype, so thread ids that contain a colon cannot collide and the
  prefix test of `forgetCompletedEffects` is equality of threads.
- Decoding of `launchedBy`, `attributes`, trace contexts and session messages: kept as raw JSON, or
  taken as already decoded or absent.
- Event ids and timestamps that hosts generate: parameters. In cancellation `isWorkerEffect`, effect
  timeouts, the test whether an event is what a wait is for, and the key order of the waits are
  arbitrary; repository commits and child runs' closing are not part of this model.
- SHA-256, JSON text and UTF-8 sizes: functions of a codec. The values that are stored are assumed to
  survive their encoding, and the bodies that are stored not to share a digest; nothing is assumed of
  other values and bodies. A snapshot's covered state is assumed to survive its schema's encoding.
- Recorded resume seqs that are fractions.
- Blob storage, coalescing, delivery across hosts, offloading and subscriptions are state machines on
  values, since their point is interleaving; updates in place of one process are their steps. Which
  of several failing children an offload or resolve error names is not modelled.
- BlobOffload.RetainedEventsResolve: takes as its environment what `BlobStore.RetainedBodyStays` proves
  of the mark-and-collect protocol, that a referenced body stays in place or in a collector's hands,
  instead of running both machines at once. That a held body comes back is `BlobStore.HolderRestores`.
- BlobStore.RetainedBodyStays: leaves out a byte operation that fails inside `replaceRefs`, after
  which a run's list can name a digest without a marker.
- EventStore.StoresAgree: leaves out empty appends without fence or idempotency key, which SQLite
  answers without checks, trims past the end of a log, and negative read limits, which a slice counts
  from the end and SQL's `LIMIT` ignores.
- Delivery.DeliverProjector: the log does not change during the call; with appends, trims, requeues and
  other deliveries in between, see `DeliveryProtocol`.
- A projector's own copy: rewinding a cursor to a projector's position is modelled, but whether the
  events it asks for again are still in the log is not.
- What is pushed through the coalescing appender, or sent through the memory queue, is JSON; nothing
  depends on it.
- `clear` in the coalescing appender, which drops state under a live flush, and interrupted pushes.
- Event and snapshot byte limits, `subscribe` on the stores, run headers and secrets.
- The window in which a socket is accepted and its backlog loaded: opening is one step. Batches are
  pushed as appended, even if the log was trimmed meanwhile.
- The memory queue's entries are values in a list that its methods replace; nothing else in the
  source holds on to them.
- `insert` operations of the run index and the event table beside it; columns merge field by field.
- The projection cache for projections, `isRunParked`, projections such as `threadTree`, HTTP, SSE and
  WebSocket transports, Cloudflare bindings, React hooks, model adapters, schemas and the debugger.
