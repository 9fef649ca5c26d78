# Verified model of the mopl services

mopl is a set of services around contents (films and the like): mopl-content
owns contents and reviews, mopl-playlist the playlists that curate them,
mopl-live-chat the rooms in which they are watched, mopl-user accounts, tokens
and follows, and mopl-notification the live notifications. This project models
their stateful cores in Dafny and proves what they promise.

`dafny verify dfyconfig.toml` checks the whole project.

## The parts

**Deletion of a content across services.** mopl-content coordinates, playlist and
live-chat take part, over at-least-once messages with inbox de-duplication, a
timeout and a compensation.

| file | holds |
|---|---|
| `Entities.dfy` | content and saga instance: rows, and the classes that change them |
| `Coordinator.dfy` | the coordinator's tables, its start step, response handler, timeout scheduler and inbox purge |
| `PlaylistParticipant.dfy` | curations with tombstones, the participant with undo |
| `LiveChatParticipant.dfy` | the participant without undo |
| `SagaWorld.dfy` | the whole system as a state machine: coordinator, participants, topic, responses in any order, users, clock |
| `SagaCoupling.dfy`, `SagaHandlers.dfy`, `SagaInvariant.dfy`, `SagaRuns.dfy` | the invariant and why every step keeps it |
| `SagaEveryRun.dfy` | what holds in every run, however sweeps are timed |
| `SagaTheorems.dfy` | all or nothing, coupling, stable answers, compensation exactly once |
| `SagaLossless.dfy`, `SagaRetention.dfy` | what compensation gives back, and how soon it must be read |
| `SagaTiming.dfy` | the two clock readings, the bounded lock |
| `SagaConfluence.dfy`, `SagaOutcome.dfy` | order and repetition of answers do not matter; where every run of a saga ends |
| `SagaInbox.dfy` | the inbox of the coordinator does not matter |
| `SagaRows.dfy` | what each operation does to the rows, field by field; deletions leave ratings and counts alone |
| `SagaCounterexamples.dfy` | runs that show where the promises end |

**Indexes and caches that must agree with something simple.**

| file | holds |
|---|---|
| `WatchingSessions.dfy`, `WatcherCountSync.dfy` | three redundant Redis structures, and the counts derived from them in another service |
| `JwtRegistry.dfy` | refresh tokens in a key each and a sorted set per user, all with expiry |
| `SessionQueues.dfy`, `SessionRefinement.dfy`, `SessionRuns.dfy`, `SessionTimes.dfy` | they refine one bounded queue per user; evictions are fair; tokens are used once |
| `Sse.dfy` | emitters, replay history and routing table of the notification instances |
| `SseEffects.dfy`, `SseCluster.dfy`, `SseRuns.dfy`, `SseHistory.dfy`, `SseStreams.dfy` | exactly-once fan-out in the cluster, unbroken streams across reconnects, replay after a last event id (the idea of section 9.2 of the WHATWG HTML Living Standard) |
| `Keyset.dfy`, `Listings.dfy` | keyset pagination over a changing table, for contents, notifications and accounts |
| `ReviewAverage.dfy` | the rounded running average of reviews and how far it drifts |
| `Follows.dfy` | follower sets, their event log, and the replica built from it |

Classes with fields stand for the classes and tables that the services change in
place. Each of their methods is proved equal, state for state, to a function on
plain values, and the theorems are about runs of those functions.

## What is assumed

- A handler is one serialised transaction. The coordinator sends COMPENSATE before
  it commits (`mopl-content/src/main/java/org/codeit/sb06/team03/mopl/event/ContentSagaEventListener.java:118-124`);
  the model takes both as one step, and every send as successful.
- COMPENSATE goes to the topic twice, once directly and once through the outbox.
- The start topic is one ordered log, across all sagas. Each participant reads it in
  order the first time; anything read before may come again at any moment. START
  travels through the outbox while COMPENSATE is also sent directly, so that a START
  is ahead of its own COMPENSATE is itself an assumption;
  `PlaylistParticipant.OvertakingCompensateLosesCurations` shows what hangs on it.
- Responses may arrive in any order, any number of times, at any time after they
  were sent.
- The participants' inbox records outlive redelivery. The coordinator's need not
  (`SagaInbox.InboxIsIrrelevant`).
- Curations and views are added only while the content is active.
- Ids of sagas, tokens, emitters, messages and reviews are drawn fresh.
- A start step reads the clock twice. What ties the status of a content to its saga
  assumes that no sweep falls between the two readings as seen through the threshold
  (`NoTickStraddles`): `SagaTheorems.AllOrNothing`, `SagaTheorems.ContentFollowsSaga`,
  the theorems of `SagaLossless.dfy` and `SagaRetention.dfy`, and one clause of
  `SagaOutcome.SagaFollowsAnswers`. It holds whenever the readings agree (`SagaTiming.SameInstantNeverStraddles`);
  `SagaTheorems.AlwaysCoupledIff` shows that the coupling needs it, and
  `SagaCounterexamples.SweepBetweenReadingsLosesAtomicity` what is lost without.
  `SagaConfluence.OutcomeIgnoresOrder` starts from a coupled state, and
  `SagaTiming.LockIsNotOlderThanSaga` assumes that the readings agree. The other
  theorems about runs of the saga hold in every run.
- A START may fail at any point while playlist processes it; a COMPENSATE does not
  fail for good. Its listener throws
  (`mopl-playlist/src/main/java/org/codeit/sb06/team03/mopl/event/ContentEventListener.java:186-189`),
  which rolls back and has the record delivered again, and that counts as not yet read
  here; but a record that keeps failing is skipped by Kafka's default error handler after
  its last retry, and its curations then stay deleted unless the second entry gets through.
- A Redis key lives exactly as long as its token; the code cuts the remaining time
  to whole seconds. `SessionRefinement.RegisteredSoundIff` says what that can break:
  a session registered later must not expire earlier.
- A published notification reaches the other instance at some later time, once.
- Text keys of accounts are represented by their rank in the database's order, and
  ratings are in tenths, computed exactly.
- Events of one followee go to one partition in order, and handling them succeeds.

Where the code and its documentation differ the model follows the code. The
documentation (`docs/saga_kafka_cdc.md:126`) calls the compensation a complete rollback.
The code revives every tombstone of the content, also those of users
(`SagaLossless.RestoreIsExactIff`), and the purge of tombstones after seven days
can forestall it (`SagaCounterexamples.PurgeForestallsCompensation`).

## Model

| member | source | states |
|---|---|---|
| `SagaTheorems.AllOrNothing` | `mopl-content/src/main/java/org/codeit/sb06/team03/mopl/event/ContentSagaEventListener.java:45-112` | In every state of the whole system reached without a straddling sweep a removed content has exactly one completed saga, with success from both participants; no COMPENSATE of it was ever logged, both participants recorded success, and no curation of the content is live or its view shown, whatever was redelivered and whichever sagas failed before. |
| `SagaTheorems.ContentFollowsSaga` | `mopl-content/src/main/java/org/codeit/sb06/team03/mopl/scheduler/ContentSagaTimeoutScheduler.java:43-75` | In every state reached without a straddling sweep a content is locked exactly while one started saga names it and removed exactly when one completed saga does; never two. |
| `SagaTheorems.FinishedForGood` | `mopl-content/src/main/java/org/codeit/sb06/team03/mopl/entity/SagaInstance.java:79-96` | In every run, however it goes on, a finished saga keeps its whole row, a removed content stays removed, and no entry of the topic is lost: the unguarded mark methods are never misused. |
| `SagaTheorems.CompensatedExactlyOnce` | `mopl-content/src/main/java/org/codeit/sb06/team03/mopl/event/ContentSagaEventListener.java:114-130` | In every run a saga has one START in the topic, and one compensation (its two entries, one sent directly and one through the outbox) exactly if it failed or timed out. |
| `SagaTheorems.AnswersAreStable` | `mopl-playlist/src/main/java/org/codeit/sb06/team03/mopl/event/ContentEventListener.java:138-168` | In every run, over any redeliveries, a participant never sends two different answers for one saga, and every answer sent repeats the sender's inbox record. |
| `SagaTheorems.RedeliveryChangesNothing` | `mopl-playlist/src/main/java/org/codeit/sb06/team03/mopl/service/application/InboxService.java:19-39` | In every run, reading again any command that playlist has read before leaves its tables as they are, whatever users have added since; and any that live-chat has read before leaves its sessions and its memory as they are, however full the room is again. |
| `SagaTheorems.DeletionCarriedOutAtMostOnce` | `mopl-live-chat/src/main/java/org/codeit/sb06/team03/mopl/event/ContentEventListener.java:82-117` | In every run, however START is redelivered, whatever users do between its readings and even with ill-timed sweeps, each participant, playlist as live-chat, carries out the deletion of a saga at most once. |
| `SagaTheorems.ReachableSound` | `mopl-content/src/main/java/org/codeit/sb06/team03/mopl/event/ContentSagaEventListener.java:45-130` | The invariant of the whole system (coupling, topic order and counts, inbox records, votes, curations) holds in every state a run reaches without a straddling sweep. |
| `SagaTheorems.AlwaysCoupledIff` | `mopl-content/src/main/java/org/codeit/sb06/team03/mopl/scheduler/ContentSagaTimeoutScheduler.java:43-75` | Contents and sagas are coupled in every state a run goes through exactly if none of its sweeps falls between the lock and the stamp of a deletion as seen through the threshold. |
| `SagaEveryRun.ReachableSteady` | `mopl-content/src/main/java/org/codeit/sb06/team03/mopl/event/ContentSagaEventListener.java:45-130` | In every run whatever its timing: the topic has its entries exactly as often as it should, every one naming its saga's content; a completed saga's content is removed and a locked content has a started saga; playlist has recorded exactly what it read and live-chat every START it read; responses repeat their senders' records. |
| `SagaEveryRun.StepEvolves` | `mopl-content/src/main/java/org/codeit/sb06/team03/mopl/entity/SagaInstance.java:79-96` | No step from any state, sound or not, changes a finished saga, brings back a removed content or shortens the topic. |
| `SagaRuns.RunSound` | `mopl-content/src/main/java/org/codeit/sb06/team03/mopl/event/ContentSagaEventListener.java:45-130` | From any sound state every run without a straddling sweep keeps the invariant. |
| `SagaHandlers.HandleResponseSound` | `mopl-content/src/main/java/org/codeit/sb06/team03/mopl/event/ContentSagaEventListener.java:45-112` | A response that echoes its saga's content, new or repeated, keeps contents, sagas and topic coupled. |
| `SagaHandlers.StartSound` | `mopl-content/src/main/java/org/codeit/sb06/team03/mopl/service/application/ContentCommandService.java:103-121` | The start step keeps contents, sagas and topic coupled, refused or not. |
| `SagaHandlers.TimeOutAllSound` | `mopl-content/src/main/java/org/codeit/sb06/team03/mopl/scheduler/ContentSagaTimeoutScheduler.java:46-64` | The timeout loop over any listing of the timed-out sagas keeps contents, sagas and topic coupled. |
| `SagaHandlers.SweepSoundIff` | `mopl-content/src/main/java/org/codeit/sb06/team03/mopl/scheduler/ContentSagaTimeoutScheduler.java:43-75` | A run of the scheduler keeps the coupling exactly when no started saga is stamped inside the window while its content's lock is outside it; then the fallback loop changes nothing. |
| `SagaHandlers.FallbackFindsStraddled` | `mopl-content/src/main/java/org/codeit/sb06/team03/mopl/scheduler/ContentSagaTimeoutScheduler.java:66-74` | After the timeout loop the fallback loop finds work exactly when such a straddled saga exists. |
| `SagaCoupling.MoveCoupled` | `mopl-content/src/main/java/org/codeit/sb06/team03/mopl/entity/Content.java:155-189` | A started saga that completes, fails, times out or notes a success, its content following, keeps every content driven by exactly one saga. |
| `SagaCoupling.StartOrdered` | `mopl-content/src/main/java/org/codeit/sb06/team03/mopl/service/application/ContentCommandService.java:103-121` | A new START is appended only after the COMPENSATE of every earlier saga of the same content. |
| `SagaCoupling.TwoStarts` | `mopl-content/src/main/java/org/codeit/sb06/team03/mopl/service/application/ContentCommandService.java:103-121` | Between two STARTs of one content in the topic one of the two sagas has been compensated. |
| `SagaCoupling.CompensateNeedsStart` | `mopl-content/src/main/java/org/codeit/sb06/team03/mopl/event/ContentSagaEventListener.java:114-130` | No COMPENSATE stands in the topic without its START before it. |
| `SagaInvariant.PlaylistReadSound` | `mopl-playlist/src/main/java/org/codeit/sb06/team03/mopl/event/ContentEventListener.java:132-190` | Whatever entry playlist reads, for the first time or again, and wherever an exception strikes, the invariant of the system holds afterwards. |
| `SagaInvariant.ChatReadSound` | `mopl-live-chat/src/main/java/org/codeit/sb06/team03/mopl/event/ContentEventListener.java:82-117` | The same for live-chat. |
| `SagaInvariant.UndoAlreadyRead` | `mopl-playlist/src/main/java/org/codeit/sb06/team03/mopl/event/ContentEventListener.java:171-190` | A COMPENSATE on a content whose running saga playlist has already processed belongs to an older saga and has been read before: it cannot undo the running deletion. |
| `SagaLossless.CompensationIsLossless` | `mopl-playlist/src/main/java/org/codeit/sb06/team03/mopl/repository/CurationRepository.java:37-51` | When playlist has read the whole topic, the live curations of an active content are all those their users want, and besides only those a compensation revived; its view is shown if playlist ever had one. Purges are assumed to spare what is due: `SagaRetention.LosslessIfReadInTime` says when they do. |
| `SagaLossless.CompensationIsExact` | `mopl-playlist/src/main/java/org/codeit/sb06/team03/mopl/repository/CurationRepository.java:37-51` | The live set is then exactly the wanted one, however many sagas failed half-way, if at each restore of the content no tombstone that a user left was stored; removals of other contents, removals whose row is gone or wanted again by then, and later ones do not matter. |
| `SagaLossless.NeverRevivedIff` | `mopl-playlist/src/main/java/org/codeit/sb06/team03/mopl/repository/CurationRepository.java:45-51` | A run never brings back a curation that its user had removed exactly if at each restore of the content only wanted rows are stored. |
| `SagaRetention.LosslessIfReadInTime` | `mopl-playlist/src/main/java/org/codeit/sb06/team03/mopl/scheduler/PlaylistPurgeScheduler.java:25-43` | If no purge runs while a START that playlist carried out longer ago than the retention may still be undone, purges spare all that is due, and compensation is lossless in the same sense. |
| `SagaLossless.RestoreIsExactIff` | `mopl-playlist/src/main/java/org/codeit/sb06/team03/mopl/repository/CurationRepository.java:45-51` | One restore yields exactly the wanted set precisely when no tombstone that a user left is stored for the content. |
| `SagaLossless.PurgeKeepsIff` | `mopl-playlist/src/main/java/org/codeit/sb06/team03/mopl/scheduler/PlaylistPurgeScheduler.java:25-43` | The purge of curations and views loses nothing that is due exactly when no due row is marked deleted for longer than the retention. |
| `SagaLossless.KeptThroughoutIff` | `mopl-playlist/src/main/java/org/codeit/sb06/team03/mopl/scheduler/PlaylistPurgeScheduler.java:25-43` | From a sound state a run without a straddling sweep keeps, at every moment, all that is due stored and live or still to be restored, exactly if its purges spare what is due. |
| `SagaTiming.LockIsNotOlderThanSaga` | `mopl-content/src/main/java/org/codeit/sb06/team03/mopl/service/application/ContentCommandService.java:103-121` | If the two clock readings of a start step agree, no sweep straddles, a started saga's content is locked, and the saga's creation is not after the content's last change. |
| `SagaTiming.LockEndsInTime` | `mopl-content/src/main/java/org/codeit/sb06/team03/mopl/scheduler/ContentSagaTimeoutScheduler.java:38-64` | In every run with a sweep at least every 60 seconds a locked content has a started saga, and is not locked more than 240 seconds after that saga was created. |
| `SagaTiming.SagaEndsInTime` | `mopl-content/src/main/java/org/codeit/sb06/team03/mopl/scheduler/ContentSagaTimeoutScheduler.java:38-64` | The same bound for started sagas, without any condition on clock readings. |
| `SagaOutcome.SagaFollowsAnswers` | `mopl-content/src/main/java/org/codeit/sb06/team03/mopl/event/ContentSagaEventListener.java:46-107` | However a run goes on after a saga has started, with any redeliveries, reorderings, sweeps and other sagas: the saga has timed out exactly if a sweep listed it; otherwise it has failed exactly if a refusal was delivered for it, has completed and removed its content exactly if both successes were, and else goes on, its content then being locked unless a sweep straddled a deletion. |
| `SagaOutcome.StartedFromScratch` | `mopl-content/src/main/java/org/codeit/sb06/team03/mopl/service/application/ContentCommandService.java:103-121` | In every run an accepted deletion under a fresh id leads to the state this starts from: nothing noted, and no answer for the saga recorded in the inbox. |
| `SagaConfluence.OutcomeIgnoresOrder` | `mopl-content/src/main/java/org/codeit/sb06/team03/mopl/event/ContentSagaEventListener.java:46-107` | From a coupled state and without a timeout, any order and repetition of the same answers ends in the same place: failed and unlocked if some answer fails the saga, completed and removed if both succeeded, else started and locked. |
| `SagaInbox.InboxIsIrrelevant` | `mopl-content/src/main/java/org/codeit/sb06/team03/mopl/service/application/InboxService.java:19-34` | In every run of the whole system, sweeps and new sagas included, a coordinator that never consults its inbox ends with the same contents, sagas and topic, time stamps of sagas apart, and so do participants and responses: purging the inbox at any time is safe. |
| `SagaConfluence.AnswersNeverClash` | `mopl-live-chat/src/main/java/org/codeit/sb06/team03/mopl/event/ContentEventListener.java:88-116` | The answers that any run really sends never both fail and complete a saga, so the outcome is always independent of order. |
| `SagaConfluence.OrderIrrelevantIff` | `mopl-content/src/main/java/org/codeit/sb06/team03/mopl/entity/SagaInstance.java:61-81` | From a saga just started, all orders of the same deliveries end with one status exactly if the answers in them do not both fail and complete the saga. |
| `SagaConfluence.OrderMattersOtherwise` | `mopl-content/src/main/java/org/codeit/sb06/team03/mopl/entity/SagaInstance.java:61-81` | Whenever they do both, some order of the very same deliveries completes the saga and another fails it. |
| `SagaCounterexamples.SweepBetweenReadingsLosesAtomicity` | `mopl-content/src/main/java/org/codeit/sb06/team03/mopl/service/application/ContentCommandService.java:103-121` | A run in which a sweep falls between the two clock readings of a start step ends with a removed content and a live curation of it. |
| `SagaCounterexamples.SweptRun` | `mopl-content/src/main/java/org/codeit/sb06/team03/mopl/scheduler/ContentSagaTimeoutScheduler.java:66-74` | In that run the fallback loop unlocks a content whose saga goes on; such a run has a straddling sweep. |
| `SagaCounterexamples.CompensationRevivesRemovedCuration` | `mopl-playlist/src/main/java/org/codeit/sb06/team03/mopl/repository/CurationRepository.java:45-51` | A run in which a failed deletion brings back a curation that its user had removed before. |
| `SagaCounterexamples.PurgeForestallsCompensation` | `mopl-playlist/src/main/java/org/codeit/sb06/team03/mopl/scheduler/PlaylistPurgeScheduler.java:25-43` | A run without sweeps in which COMPENSATE is read after the retention: the content is active, everything is read, and the wanted curation and the view are gone. |
| `SagaRows.FiguresSurvive` | `mopl-content/src/main/java/org/codeit/sb06/team03/mopl/entity/Content.java:155-177` | In every run of the whole system no deletion, failed, timed out or completed, ever changes the rating, the review count or the watcher count of a content. |
| `SagaRows.StepOnRow` | `mopl-content/src/main/java/org/codeit/sb06/team03/mopl/entity/Content.java:155-177` | The only changes a step makes to a content are a status change that its action allows, stamped with the time of the step, and the time stamp of an edit. |
| `SagaRows.ResponseExactly` | `mopl-content/src/main/java/org/codeit/sb06/team03/mopl/event/ContentSagaEventListener.java:45-112` | A response is recorded at the time it is handled, and does nothing if it was recorded. A refusal, any text but SUCCESS from a participant or an earlier failure fails a started saga: content unlocked, two COMPENSATE entries. The last success removes the content. Any other answer is noted only; other sagas, other contents and finished sagas stay as they are. |
| `SagaRows.SweepExactly` | `mopl-content/src/main/java/org/codeit/sb06/team03/mopl/scheduler/ContentSagaTimeoutScheduler.java:38-75` | A sweep ends exactly the sagas started more than 180 seconds before it, and unlocks exactly their locked contents and the contents whose lock itself is older than that, touching nothing else of any row. |
| `SagaRows.FallbackExactly` | `mopl-content/src/main/java/org/codeit/sb06/team03/mopl/scheduler/ContentSagaTimeoutScheduler.java:66-74` | The second loop alone unlocks exactly the contents locked more than 180 seconds before. |
| `SagaRows.StartExactly` | `mopl-content/src/main/java/org/codeit/sb06/team03/mopl/service/application/ContentCommandService.java:103-121` | An accepted start locks the content at the first clock reading, adds one saga with nothing noted stamped at the second, and appends one START; a refused one changes nothing. |
| `SagaRows.PurgeExactly` | `mopl-content/src/main/java/org/codeit/sb06/team03/mopl/service/application/InboxService.java:31-34` | A purge of the inbox removes the records before the threshold and nothing else. |
| `PlaylistParticipant.StartExactly` | `mopl-playlist/src/main/java/org/codeit/sb06/team03/mopl/event/ContentEventListener.java:138-168` | A START read first marks every row of the content deleted now, also rows deleted before, and then its view unless marked; an exception stops it where it strikes, what was marked stays marked, and the answer recorded and sent is a refusal. |
| `PlaylistParticipant.CompensateExactly` | `mopl-playlist/src/main/java/org/codeit/sb06/team03/mopl/repository/CurationRepository.java:45-51` | A COMPENSATE read first makes every row of the content live and shows its view, and nothing else; it sends no answer. |
| `PlaylistParticipant.DeletedPlaylistExactly` | `mopl-playlist/src/main/java/org/codeit/sb06/team03/mopl/repository/CurationRepository.java:29-35` | Deleting a playlist marks all its rows deleted now, and no other row. |
| `PlaylistParticipant.EditsExactly` | `mopl-playlist/src/main/java/org/codeit/sb06/team03/mopl/service/application/PlaylistCommandService.java:64-99` | A removal by a user marks that live row now and touches no other; adding it again brings exactly the state before back. |
| `PlaylistParticipant.PurgeExactly` | `mopl-playlist/src/main/java/org/codeit/sb06/team03/mopl/scheduler/PlaylistPurgeScheduler.java:25-43` | The purge takes exactly the curations and views marked deleted more than 604,800,000 milliseconds before, and changes no other. |
| `LiveChatParticipant.FaultIsRemembered` | `mopl-live-chat/src/main/java/org/codeit/sb06/team03/mopl/event/ContentEventListener.java:88-117` | If an exception strikes while a START is read first, failure is recorded and answered, now and on every redelivery; COMPENSATE changes nothing and is not answered. |
| `PlaylistParticipant.OvertakingCompensateLosesCurations` | `mopl-playlist/src/main/java/org/codeit/sb06/team03/mopl/event/ContentEventListener.java:132-190` | If a COMPENSATE is read before its own START, the curation stays deleted and the view hidden, whatever is read again. |
| `PlaylistParticipant.PlaylistPurgeScheduler.PurgeOldSoftDeletedData` | `mopl-playlist/src/main/java/org/codeit/sb06/team03/mopl/scheduler/PlaylistPurgeScheduler.java:25-43` | Removes the curations and the views marked deleted before the threshold and nothing else. |
| `Coordinator.ContentSagaEventListener.ProcessSagaResponse` | `mopl-content/src/main/java/org/codeit/sb06/team03/mopl/event/ContentSagaEventListener.java:45-112` | The handler leaves exactly the tables and topic of the specification, in every branch. |
| `Coordinator.ContentSagaTimeoutScheduler.HandleTimedOutSaga` | `mopl-content/src/main/java/org/codeit/sb06/team03/mopl/scheduler/ContentSagaTimeoutScheduler.java:41-75` | Both loops together leave the specified state, for whatever order the query lists the sagas in. |
| `Coordinator.ContentSagaTimeoutScheduler.UnlockStale` | `mopl-content/src/main/java/org/codeit/sb06/team03/mopl/scheduler/ContentSagaTimeoutScheduler.java:66-74` | The fallback loop restores exactly the stale locked contents, in any order. |
| `Coordinator.ContentDb.FindStartedBefore` | `mopl-content/src/main/java/org/codeit/sb06/team03/mopl/scheduler/ContentSagaTimeoutScheduler.java:44-48` | The query lists the started sagas created before the threshold, each once. |
| `Coordinator.ContentCommandService.DeleteSaga` | `mopl-content/src/main/java/org/codeit/sb06/team03/mopl/service/application/ContentCommandService.java:103-121` | Refused for an unknown content and for one that is not active, with nothing changed; else content, saga and START as specified. |
| `Coordinator.ContentCommandService.UpdateWatcherCounts` | `mopl-content/src/main/java/org/codeit/sb06/team03/mopl/service/application/ContentCommandService.java:123-132` | Sets the counts named in the batch, touches no other row, and returns how many rows really changed. |
| `Coordinator.InboxService.PurgeOldInboxEvents` | `mopl-content/src/main/java/org/codeit/sb06/team03/mopl/service/application/InboxService.java:31-34` | Removes the records older than the threshold and returns how many there were. |
| `Entities.Content.MarkAsDeleting` | `mopl-content/src/main/java/org/codeit/sb06/team03/mopl/entity/Content.java:155-161` | Succeeds exactly from ACTIVE and changes nothing otherwise. |
| `Entities.SagaInstance.UpdateParticipant` | `mopl-content/src/main/java/org/codeit/sb06/team03/mopl/entity/SagaInstance.java:61-69` | Notes the answer for the named participant; any text but SUCCESS is a failure, any third participant moves the time stamp only. |
| `PlaylistParticipant.ContentEventListener.ProcessContentDeletionSaga` | `mopl-playlist/src/main/java/org/codeit/sb06/team03/mopl/event/ContentEventListener.java:132-169` | The listener leaves the specified tables and sends the specified answers, for new and redelivered commands and for an exception at any point. |
| `PlaylistParticipant.ContentEventListener.HandleContentCompensate` | `mopl-playlist/src/main/java/org/codeit/sb06/team03/mopl/event/ContentEventListener.java:171-190` | The restore is done once per saga and answered never. |
| `PlaylistParticipant.PlaylistDb.PurgeCurationsDeletedBefore` | `mopl-playlist/src/main/java/org/codeit/sb06/team03/mopl/repository/CurationRepository.java:53-58` | Removes the tombstones older than the threshold, keeps every other row, and counts them. |
| `PlaylistParticipant.PlaylistCommandService.AddContentToPlaylist` | `mopl-playlist/src/main/java/org/codeit/sb06/team03/mopl/service/application/PlaylistCommandService.java:64-81` | Refused for an unknown playlist, for another owner's, and for a curation that is live, with nothing changed; else the row is live, a tombstone revived. |
| `PlaylistParticipant.PlaylistCommandService.DeleteContentFromPlaylist` | `mopl-playlist/src/main/java/org/codeit/sb06/team03/mopl/service/application/PlaylistCommandService.java:83-99` | Refused for an unknown playlist, for another owner's, and where no curation is live; else leaves a tombstone. |
| `LiveChatParticipant.ContentEventListener.ProcessContentDeletionSaga` | `mopl-live-chat/src/main/java/org/codeit/sb06/team03/mopl/event/ContentEventListener.java:82-117` | Closes the room once per saga, remembers the answer and repeats it on redelivery; a COMPENSATE does nothing. |
| `LiveChatParticipant.StartClosesRoomOnce` | `mopl-live-chat/src/main/java/org/codeit/sb06/team03/mopl/event/ContentEventListener.java:88-116` | A START read for the first time empties the room of the content, ends every session in it and is answered by success; it ends no session elsewhere exactly if no watcher listed in the room has the current session elsewhere; read again it changes nothing and is answered the same. |
| `WatchingSessions.ClosedRoomIsEmpty` | `mopl-live-chat/src/main/java/org/codeit/sb06/team03/mopl/repository/redis/WatchingSessionRedisRepository.java:225-238` | Closing a room ends the sessions of all watchers listed in it, among them all that are in it; sessions elsewhere go on, and other rooms keep their watchers, exactly if no watcher listed in it has the current session elsewhere. |
| `WatchingSessions.EveryRunAgrees` | `mopl-live-chat/src/main/java/org/codeit/sb06/team03/mopl/repository/redis/WatchingSessionRedisRepository.java:34-56` | Over all saves under fresh ids and all deletes every stored session has its id entry and its room entry with its creation time as score. |
| `WatchingSessions.EveryRunIsExactIff` | `mopl-live-chat/src/main/java/org/codeit/sb06/team03/mopl/repository/redis/WatchingSessionRedisRepository.java:196-238` | From structures in bijection a run with fresh ids ends in bijection exactly if no join that passed the guard came from a watcher with a session: the id entry that one leaves behind is never deleted. |
| `WatchingSessions.RoomSizesSumToSessions` | `mopl-live-chat/src/main/java/org/codeit/sb06/team03/mopl/repository/redis/WatchingSessionRedisRepository.java:68-73` | In a state in bijection the sizes of the rooms add up to the number of sessions. |
| `WatchingSessions.SaveAgreesIff` | `mopl-live-chat/src/main/java/org/codeit/sb06/team03/mopl/repository/redis/WatchingSessionRedisRepository.java:34-56` | A save keeps the structures in agreement exactly if its id is no other watcher's. |
| `WatchingSessions.SaveExactIff` | `mopl-live-chat/src/main/java/org/codeit/sb06/team03/mopl/service/application/WatchingSessionCommandService.java:26-33` | A save under a fresh id keeps the bijection exactly when the watcher has no session at all: the condition that the guard on the (room, watcher) pair falls short of. |
| `WatchingSessions.SecondRoomLeavesStaleEntry` | `mopl-live-chat/src/main/java/org/codeit/sb06/team03/mopl/service/application/WatchingSessionCommandService.java:26-33` | A watcher who joins a second room passes the guard and stays listed in the first. |
| `WatchingSessions.SaveExactly` | `mopl-live-chat/src/main/java/org/codeit/sb06/team03/mopl/repository/redis/WatchingSessionRedisRepository.java:34-56` | A save gives the watcher this session, its id the watcher and the room the watcher at the creation time, and changes no other entry of the three structures. |
| `WatchingSessions.DeleteByWatcherExactly` | `mopl-live-chat/src/main/java/org/codeit/sb06/team03/mopl/repository/redis/WatchingSessionRedisRepository.java:196-213` | Deleting by watcher takes the session, its id entry and its room entry; every other watcher keeps all three, every other id its entry and every other room its watchers. |
| `WatchingSessions.DeleteByIdExactly` | `mopl-live-chat/src/main/java/org/codeit/sb06/team03/mopl/repository/redis/WatchingSessionRedisRepository.java:215-222` | Deleting by session id does that for the watcher the id belongs to, leaves every other watcher alone, and does nothing for an unknown id. |
| `WatchingSessions.WatchingSessionRedisRepository.DeleteById` | `mopl-live-chat/src/main/java/org/codeit/sb06/team03/mopl/repository/redis/WatchingSessionRedisRepository.java:215-222` | After it the watcher of the id has no session; an unknown id changes nothing. |
| `WatchingSessions.WatchingSessionRedisRepository.DeleteByLiveChatRoomId` | `mopl-live-chat/src/main/java/org/codeit/sb06/team03/mopl/repository/redis/WatchingSessionRedisRepository.java:225-238` | The loop deletes every listed watcher's current session and then the room itself. |
| `WatchingSessions.WatchingSessionCommandService.CreateWithId` | `mopl-live-chat/src/main/java/org/codeit/sb06/team03/mopl/service/application/WatchingSessionCommandService.java:26-33` | Refused exactly if the watcher is already listed in this room; else saved. |
| `WatcherCountSync.SyncMatchesRooms` | `mopl-live-chat/src/main/java/org/codeit/sb06/team03/mopl/scheduler/WatcherCountSyncScheduler.java:33-85` | A sync whose call succeeds leaves the stored count of every content equal to the size of its room, emptied rooms included, for every order and repetition of the key scan. |
| `WatcherCountSync.EveryRunMatches` | `mopl-live-chat/src/main/java/org/codeit/sb06/team03/mopl/scheduler/WatcherCountSyncScheduler.java:33-85` | Over any run of successful syncs, with contents created and edited between them, every content with a positive count is remembered as active, and after each sync the counts match the rooms. |
| `WatcherCountSync.FailedSyncRepairedIff` | `mopl-live-chat/src/main/java/org/codeit/sb06/team03/mopl/scheduler/WatcherCountSyncScheduler.java:74-80` | After a failed call the next successful sync makes every count right, whatever the rooms are by then, exactly if no content with a positive count had lost its last watcher. |
| `WatcherCountSync.FailedCallLosesEmptiedRoom` | `mopl-live-chat/src/main/java/org/codeit/sb06/team03/mopl/scheduler/WatcherCountSyncScheduler.java:74-80` | After a failed call a room emptied meanwhile keeps its positive count through any number of successful syncs while it stays empty. |
| `WatcherCountSync.WatcherCountSyncScheduler.SyncWatcherCounts` | `mopl-live-chat/src/main/java/org/codeit/sb06/team03/mopl/scheduler/WatcherCountSyncScheduler.java:33-85` | The loops and the call leave the specified counts and the specified memory of active rooms. |
| `WatcherCountSync.SyncTouchesCounts` | `mopl-live-chat/src/main/java/org/codeit/sb06/team03/mopl/scheduler/WatcherCountSyncScheduler.java:33-85` | A sync changes no content but for its watcher count, and nothing if its call fails. |
| `SessionTimes.IncreasingTimesRefineQueues` | `mopl-user/src/main/java/org/codeit/sb06/team03/mopl/security/jwt/registry/RedisJwtRegistry.java:43-128` | With one time to live and strictly increasing register times of every user: over every run of logins, rotations, logouts and passing time a refresh token is active exactly if a simple bounded queue per user holds it, and the sorted set never outgrows the limit. |
| `SessionRuns.RegistryRefinesQueues` | `mopl-user/src/main/java/org/codeit/sb06/team03/mopl/security/jwt/registry/RedisJwtRegistry.java:43-128` | The same for any times to live, as long as each session is registered last in its set and expires no earlier than those that stay. |
| `SessionRuns.StepSimulates` | `mopl-user/src/main/java/org/codeit/sb06/team03/mopl/security/jwt/registry/RedisJwtRegistry.java:43-128` | Every single operation does to the queue what the simple machine does, and keeps the two Redis structures sound. |
| `SessionTimes.EvictionIsFairInEveryRun` | `mopl-user/src/main/java/org/codeit/sb06/team03/mopl/security/jwt/registry/RedisJwtRegistry.java:50-69` | In every run with one time to live, logins of one instant included, a login ends another session only if as many as allowed are active, and then only the one the queue lists first, however many expired entries the set still lists. |
| `SessionTimes.RotationIsFairInEveryRun` | `mopl-user/src/main/java/org/codeit/sb06/team03/mopl/security/jwt/registry/RedisJwtRegistry.java:114-123` | In every such run a successful rotation keeps the number of sessions and ends no other. |
| `SessionTimes.RegisteredAged` | `mopl-user/src/main/java/org/codeit/sb06/team03/mopl/security/jwt/registry/RedisJwtRegistry.java:71-77` | Under one time to live registering keeps keys and set sound wherever the new entry goes: the order of the set is the order of expiry. |
| `SessionRuns.EvictsOnlyWhenFull` | `mopl-user/src/main/java/org/codeit/sb06/team03/mopl/security/jwt/registry/RedisJwtRegistry.java:50-69` | From any sound state a login ends another session only if the queue is full, and then its first. |
| `SessionRuns.RotationReplaces` | `mopl-user/src/main/java/org/codeit/sb06/team03/mopl/security/jwt/registry/RedisJwtRegistry.java:114-123` | A successful rotation drops the old session, appends the new one and ends no other. |
| `SessionRuns.RotatedAtMostOnce` | `mopl-user/src/main/java/org/codeit/sb06/team03/mopl/security/jwt/registry/RedisJwtRegistry.java:114-123` | In any run, whatever its timing, a refresh token is rotated successfully at most once, and never after it became inactive. |
| `SessionRuns.NeverActiveAgain` | `mopl-user/src/main/java/org/codeit/sb06/team03/mopl/security/jwt/registry/RedisJwtRegistry.java:82-89` | An issued token that is not active is not active in any later state of any run. |
| `SessionTimes.IncreasingTimesInOrder` | `mopl-user/src/main/java/org/codeit/sb06/team03/mopl/security/jwt/registry/RedisJwtRegistry.java:76` | If every user's register times strictly increase, each session is registered last in its set. |
| `SessionRuns.ConstantTtlIsTimely` | `mopl-user/src/main/java/org/codeit/sb06/team03/mopl/security/jwt/registry/RedisJwtRegistry.java:71-77` | With one fixed time to live the condition on expiry always holds. |
| `SessionRuns.TieEvictsNewer` | `mopl-user/src/main/java/org/codeit/sb06/team03/mopl/security/jwt/registry/RedisJwtRegistry.java:76` | Two logins in one millisecond are ordered by id, so the newer can be evicted before the older. |
| `SessionQueues.EvictionIsFair` | `mopl-user/src/main/java/org/codeit/sb06/team03/mopl/security/jwt/registry/RedisJwtRegistry.java:50-62` | Displacing the oldest entries of a set whose expired entries come first displaces sessions exactly as a full queue does. |
| `SessionQueues.AppendsIff` | `mopl-user/src/main/java/org/codeit/sb06/team03/mopl/security/jwt/registry/RedisJwtRegistry.java:76` | The sorted set appends a new entry exactly if every other comes before it by score and id. |
| `SessionRefinement.RegisteredSoundIff` | `mopl-user/src/main/java/org/codeit/sb06/team03/mopl/security/jwt/registry/RedisJwtRegistry.java:71-77` | Registering keeps keys and set sound (every key listed, the set outliving it) exactly if the new session does not expire before one that stays. |
| `SessionRefinement.RegisteredQueue` | `mopl-user/src/main/java/org/codeit/sb06/team03/mopl/security/jwt/registry/RedisJwtRegistry.java:43-80` | Registering pushes onto the user's queue, dropping the oldest only if it is full, and leaves every other user's queue alone. |
| `SessionRefinement.ForgetQueue` | `mopl-user/src/main/java/org/codeit/sb06/team03/mopl/security/jwt/registry/RedisJwtRegistry.java:125-128` | Invalidating one token drops it from its user's queue and from no other. |
| `SessionRefinement.ExpiredQueue` | `mopl-user/src/main/java/org/codeit/sb06/team03/mopl/security/jwt/registry/RedisJwtRegistry.java:71-77` | Passing time drops exactly the expired sessions from every queue, also where the whole set expires. |
| `SessionRefinement.InvalidatedAllSound` | `mopl-user/src/main/java/org/codeit/sb06/team03/mopl/security/jwt/registry/RedisJwtRegistry.java:91-102` | Invalidating a user empties that queue and no other. |
| `JwtRegistry.RedisJwtRegistry.Register` | `mopl-user/src/main/java/org/codeit/sb06/team03/mopl/security/jwt/registry/RedisJwtRegistry.java:43-80` | The eviction loop and the three writes leave the specified structures; a clear request is sent exactly when something was evicted. |
| `JwtRegistry.RedisJwtRegistry.InvalidateAllByUserId` | `mopl-user/src/main/java/org/codeit/sb06/team03/mopl/security/jwt/registry/RedisJwtRegistry.java:91-102` | The loop deletes exactly the keys listed for the user, and then the set. |
| `JwtRegistry.RedisJwtRegistry.Rotate` | `mopl-user/src/main/java/org/codeit/sb06/team03/mopl/security/jwt/registry/RedisJwtRegistry.java:114-123` | Refused exactly for an inactive token, with nothing changed. A rotation asks for the watching sessions of the user to be cleared exactly if, without the old token, the set is still full. |
| `JwtRegistry.InvalidatedExactly` | `mopl-user/src/main/java/org/codeit/sb06/team03/mopl/security/jwt/registry/RedisJwtRegistry.java:83-112` | A refresh token is active and can be invalidated up to and with the instant it expires; after that invalidating does nothing. |
| `JwtRegistry.ForgetExactly` | `mopl-user/src/main/java/org/codeit/sb06/team03/mopl/security/jwt/registry/RedisJwtRegistry.java:125-128` | Invalidating a token takes its key and its entry in the set of its user; a set that loses its last entry is gone, another keeps its expiry. |
| `JwtRegistry.RegisteredExactly` | `mopl-user/src/main/java/org/codeit/sb06/team03/mopl/security/jwt/registry/RedisJwtRegistry.java:41-80` | Registering writes the key of the new token and its entry with the present as score, and gives the set the expiry of the token. |
| `SseRuns.ExactlyOnceFanOut` | `mopl-notification/src/main/java/org/codeit/sb06/team03/mopl/sse/service/SseService.java:80-139` | In every run no emitter receives a message twice, by local send, forwarding or replay, nor one for another user; and whoever was connected when it was sent, on any instance, and still is once no copy is under way there, has received it exactly once. |
| `SseRuns.RoutingIsExact` | `mopl-notification/src/main/java/org/codeit/sb06/team03/mopl/sse/repository/NotificationSessionRepository.java:32-64` | In every reachable state an instance is listed for a user exactly while it holds an emitter of that user, repeated disconnects included. |
| `SseRuns.StepSound` | `mopl-notification/src/main/java/org/codeit/sb06/team03/mopl/sse/service/SseService.java:32-97` | Connecting, disconnecting, sending, receiving and pinging keep routing, deliveries, channel, history and audience sound. |
| `SseRuns.SendSound` | `mopl-notification/src/main/java/org/codeit/sb06/team03/mopl/sse/service/SseService.java:80-97` | The same for one send from any instance, with any emitters breaking off during it. |
| `SseHistory.HistoryIsLastTen` | `mopl-notification/src/main/java/org/codeit/sb06/team03/mopl/sse/repository/SseRepository.java:73-83` | After any messages to any users the history of a user is the last ten sent to that user. |
| `SseHistory.EleventhDropsFirst` | `mopl-notification/src/main/java/org/codeit/sb06/team03/mopl/sse/repository/SseRepository.java:73-83` | After eleven messages to one user the history is the last ten of them. |
| `SseHistory.ReplayIsSuffix` | `mopl-notification/src/main/java/org/codeit/sb06/team03/mopl/sse/repository/SseRepository.java:89-102` | A client that last saw a message is replayed the last ten of those sent after it and none at or before it, even if that message has left the history; a client naming an id never sent here gets the last ten. |
| `SseStreams.EveryEmitterGetsAStretch` | `mopl-notification/src/main/java/org/codeit/sb06/team03/mopl/sse/service/SseService.java:32-97` | In every run of the cluster an instance keeps the last ten messages sent from it to a user, and each emitter of the user there received, of all those ever sent, one unbroken stretch, up to the last while it is connected. |
| `SseStreams.ReturnMissesNothing` | `mopl-notification/src/main/java/org/codeit/sb06/team03/mopl/sse/service/SseService.java:32-56` | In every run a client that comes back to its instance, naming the last message it received, before more than ten others were sent, has received every message since its first exactly once, over the old connection or the new. |
| `SseEffects.ConnectedEffect` | `mopl-notification/src/main/java/org/codeit/sb06/team03/mopl/sse/service/SseService.java:32-56` | A connection adds its emitter, lists the instance, and delivers the missed messages up to the one that breaks off, if one does; then the emitter is gone again. |
| `SseEffects.SentToEachEffect` | `mopl-notification/src/main/java/org/codeit/sb06/team03/mopl/sse/service/SseService.java:136-139` | An event goes once to each emitter there was, the broken ones are disconnected and the routing table follows. |
| `SseEffects.SentExactly` | `mopl-notification/src/main/java/org/codeit/sb06/team03/mopl/sse/service/SseService.java:80-97` | A send reaches each emitter of the user on the instance that does not break off, even where the table does not list the instance, and publishes one parcel for each other instance listed. |
| `SseRuns.KeysDisappear` | `mopl-notification/src/main/java/org/codeit/sb06/team03/mopl/sse/repository/NotificationSessionRepository.java:24-60` | In every run a user is a key of the emitters only while one is there, and of the routing table only while some instance is listed. |
| `Sse.BatchIsOneByOne` | `mopl-notification/src/main/java/org/codeit/sb06/team03/mopl/sse/service/SseService.java:99-124` | A batch, which keeps all messages first and then sends them, leaves everything as sending them one by one does. |
| `Sse.SseService.Send` | `mopl-notification/src/main/java/org/codeit/sb06/team03/mopl/sse/service/SseService.java:80-97` | The send leaves the specified state: kept, delivered here, and one parcel for every other instance listed. |
| `Sse.SseService.SendAll` | `mopl-notification/src/main/java/org/codeit/sb06/team03/mopl/sse/service/SseService.java:99-124` | The batch leaves the state of one send per message. |
| `Sse.SseService.Connect` | `mopl-notification/src/main/java/org/codeit/sb06/team03/mopl/sse/service/SseService.java:32-56` | The connection leaves the specified state, whichever of its events breaks off. |
| `Sse.SseService.HandleDisconnect` | `mopl-notification/src/main/java/org/codeit/sb06/team03/mopl/sse/service/SseService.java:58-63` | Removes the emitter and, with the user's last one, the routing entry. |
| `Sse.SseService.SendToLocalClient` | `mopl-notification/src/main/java/org/codeit/sb06/team03/mopl/sse/service/SseService.java:136-139` | The loop runs over the emitters there were at its start, although broken ones leave the list meanwhile. |
| `Sse.SseRepository.SaveMessage` | `mopl-notification/src/main/java/org/codeit/sb06/team03/mopl/sse/repository/SseRepository.java:73-83` | The trimming loop keeps the last ten. |
| `Sse.SseRepository.FindAllMissedMessageByUserIdAndIdAfter` | `mopl-notification/src/main/java/org/codeit/sb06/team03/mopl/sse/repository/SseRepository.java:89-102` | The search loop returns what follows the first message of the id, or all. |
| `Sse.NotificationSessionRepository.RemoveSession` | `mopl-notification/src/main/java/org/codeit/sb06/team03/mopl/sse/repository/NotificationSessionRepository.java:42-53` | Removes the instance and drops the key of an empty set. |
| `Keyset.WalkReturnsIff` | `mopl-content/src/main/java/org/codeit/sb06/team03/mopl/repository/ContentRepository.java:158-196` | However the table changes between fetches, a completed walk returns a position exactly if the table has it at the fetch that covers it. |
| `Keyset.WalkIncreases` | `mopl-content/src/main/java/org/codeit/sb06/team03/mopl/repository/ContentRepository.java:198-218` | However the table changes, the rows of a walk come in strict order, so no position comes twice. |
| `Keyset.FixedWalkIsListing` | `mopl-content/src/main/java/org/codeit/sb06/team03/mopl/repository/ContentRepository.java:68-111` | On a table that stands still the pages add up to the sorted filtered listing, in the fewest fetches. |
| `Keyset.OnlyOneSorted` | `mopl-content/src/main/java/org/codeit/sb06/team03/mopl/repository/ContentRepository.java:198-218` | The order with its tie-break determines the listing. |
| `Listings.RowReturnedAsOftenAsCaught` | `mopl-content/src/main/java/org/codeit/sb06/team03/mopl/service/composite/ContentCompositeService.java:82-92` | However rows move, come and go between the fetches, a client gets a row as often as there are places where it stands when the fetch that covers the place is made. |
| `Listings.RowReturnedOnceIff` | `mopl-content/src/main/java/org/codeit/sb06/team03/mopl/service/composite/ContentCompositeService.java:82-92` | A client that follows the cursors gets a row that never moves exactly once if it is there at the fetch that covers its place, and otherwise never. |
| `Listings.ContentReturnedOnce` | `mopl-content/src/main/java/org/codeit/sb06/team03/mopl/service/composite/ContentCompositeService.java:60-101` | A content that matches throughout with the same sort key is returned exactly once, for each sort key and direction. |
| `Listings.MovingRowComesTwice` | `mopl-content/src/main/java/org/codeit/sb06/team03/mopl/service/composite/ContentCompositeService.java:82-92` | A row whose key changes between fetches can come twice. |
| `Listings.MovingRowIsMissed` | `mopl-content/src/main/java/org/codeit/sb06/team03/mopl/service/composite/ContentCompositeService.java:82-92` | A row whose key changes between fetches can be missed although it is there throughout. |
| `Listings.ContentRepository.FindAll` | `mopl-content/src/main/java/org/codeit/sb06/team03/mopl/repository/ContentRepository.java:68-111` | One row more is fetched and cut off; the page is the first rows after the cursor, and hasNext says whether more follow. |
| `Listings.ContentCompositeService.GetContents` | `mopl-content/src/main/java/org/codeit/sb06/team03/mopl/service/composite/ContentCompositeService.java:60-101` | The next cursor is the sort key and id of the last row, given exactly if a page follows. |
| `Listings.NotificationQueryService.FindAll` | `mopl-notification/src/main/java/org/codeit/sb06/team03/mopl/repository/NotificationRepository.java:24-54` | The same page for the notifications of one receiver. |
| `Listings.NotificationQueryService.Get` | `mopl-notification/src/main/java/org/codeit/sb06/team03/mopl/service/application/NotificationQueryService.java:23-57` | The same cursor for notifications. |
| `Listings.GetUsersIsPage` | `mopl-user/src/main/java/org/codeit/sb06/team03/mopl/repository/AccountRepository.java:26-153` | The accounts listing, which returns the extra row and lets the services above cut it off, gives the same page and cursor for all five sort keys. |
| `Listings.ContentsAreAnswered` | `mopl-content/src/main/java/org/codeit/sb06/team03/mopl/repository/ContentRepository.java:68-218` | The answer holds the active contents with the keyword in the title and of the type, behind the cursor, ordered by averageTenths if rate is asked for, by watcherCount if watchers are, else by createdAt, upward only if asked for, ties by id; twenty unless a positive limit is given; no row passed over; and the next cursor is that field and the id of the last item, given exactly if rows follow. |
| `Listings.NotificationsAreAnswered` | `mopl-notification/src/main/java/org/codeit/sb06/team03/mopl/repository/NotificationRepository.java:24-54` | The same for the notifications of the receiver and of nobody else, by creation time. |
| `Listings.AccountsAreAnswered` | `mopl-user/src/main/java/org/codeit/sb06/team03/mopl/repository/AccountRepository.java:26-153` | The same for accounts with the text in the address, of the role and lock state asked for, by name, address, time of joining, lock or role. |
| `Listings.ContainsIff` | `mopl-content/src/main/java/org/codeit/sb06/team03/mopl/repository/ContentRepository.java:140-145` | A keyword filter keeps a text exactly if the text is something, the keyword, and something. |
| `ReviewAverage.AverageWithinSlack` | `mopl-content/src/main/java/org/codeit/sb06/team03/mopl/entity/Content.java:128-153` | After any creates, updates and deletes the count is the number of live reviews, and average times count is off the true total by at most half a tenth for every review counted after every change since the reviews were last empty. |
| `ReviewAverage.AddsStayWithin` | `mopl-content/src/main/java/org/codeit/sb06/team03/mopl/entity/Content.java:128-133` | While reviews are only added the average stays between the lowest and the highest rating given. |
| `ReviewAverage.RoundingAddsUp` | `mopl-content/src/main/java/org/codeit/sb06/team03/mopl/entity/Content.java:128-145` | Four additions suffice for a wrong tenth, and one removal after them for an average below every rating given. |
| `ReviewAverage.AddKeepsIff` | `mopl-content/src/main/java/org/codeit/sb06/team03/mopl/entity/Content.java:128-133` | An added review leaves the average unchanged exactly if twice the distance of its rating from it, in tenths, is below the new count. |
| `ReviewAverage.ReviewsStopCountingIff` | `mopl-content/src/main/java/org/codeit/sb06/team03/mopl/entity/Content.java:128-133` | On a scale of ratings no added review moves any average on the scale exactly if the count is at least twenty times the width of the scale: 80 for ratings one to five. |
| `ReviewAverage.AverageFreezes` | `mopl-content/src/main/java/org/codeit/sb06/team03/mopl/entity/Content.java:128-133` | From that count on any number of added reviews on the scale leaves the average as it is. |
| `ReviewAverage.ReviewCommandService.Create` | `mopl-content/src/main/java/org/codeit/sb06/team03/mopl/service/application/ReviewCommandService.java:33-49` | Refused for a live review of the author, for an unknown content, and by the unique pair of a deleted review, with nothing changed; else row and average as specified. |
| `ReviewAverage.ReviewCommandService.Update` | `mopl-content/src/main/java/org/codeit/sb06/team03/mopl/service/application/ReviewCommandService.java:51-77` | Only the author changes a review; the average follows exactly if the whole-number rating changed. |
| `ReviewAverage.ReviewCommandService.Delete` | `mopl-content/src/main/java/org/codeit/sb06/team03/mopl/service/application/ReviewCommandService.java:79-94` | Only the author removes a review, and its rating leaves the average. |
| `ReviewAverage.OnlyAuthorsEdit` | `mopl-content/src/main/java/org/codeit/sb06/team03/mopl/service/application/ReviewCommandService.java:51-94` | In every run a review keeps its rating and its live mark unless a command comes that carries its id and its author. |
| `ReviewAverage.CreateExactly` | `mopl-content/src/main/java/org/codeit/sb06/team03/mopl/service/application/ReviewCommandService.java:33-49` | A review is added exactly if the content is known and no review of the pair of content and author is there, live or deleted; then the count rises by one and no other row and no other field changes; otherwise nothing does. |
| `ReviewAverage.UpdateExactly` | `mopl-content/src/main/java/org/codeit/sb06/team03/mopl/service/application/ReviewCommandService.java:51-77` | An update is carried out exactly for the author of a live review, changes the rating of that review alone and leaves the count. |
| `ReviewAverage.DeleteExactly` | `mopl-content/src/main/java/org/codeit/sb06/team03/mopl/service/application/ReviewCommandService.java:79-94` | A delete is carried out exactly for the author of a live review; that review is then dead, the count falls by one, and without reviews the average is zero. |
| `ReviewAverage.ReviewsTouchRatings` | `mopl-content/src/main/java/org/codeit/sb06/team03/mopl/entity/Content.java:128-153` | In every run reviews leave status, time stamp and watcher count of every content alone. |
| `Entities.Content.RemoveReview` | `mopl-content/src/main/java/org/codeit/sb06/team03/mopl/entity/Content.java:135-145` | The last review resets the average; otherwise the rating leaves the remembered total. |
| `Follows.ReplicaConverges` | `mopl-playlist/src/main/java/org/codeit/sb06/team03/mopl/event/FollowEventListener.java:29-49` | However often the consumer was set back, the replica is right about every pair once the end of the partition is reached, and until then shows a state between the consumer's position and the end. |
| `Follows.CountsAndEventsAgree` | `mopl-user/src/main/java/org/codeit/sb06/team03/mopl/entity/Followee.java:45-66` | followerCount is the size of the follower set and the follows less the unfollows in the topic; nobody follows themselves; the events of each pair alternate. |
| `Follows.FollowersAreLastWords` | `mopl-user/src/main/java/org/codeit/sb06/team03/mopl/entity/Followee.java:45-66` | In every run a followee is there exactly if it was registered, and somebody is among its followers exactly if they are not itself and the last follow or unfollow of the pair since the registration was a follow. |
| `Follows.FollowExactly` | `mopl-user/src/main/java/org/codeit/sb06/team03/mopl/entity/Followee.java:45-58` | A follow by somebody new, and not of oneself, adds this follower, raises the count by one and registers one event; any other changes nothing. |
| `Follows.UnfollowExactly` | `mopl-user/src/main/java/org/codeit/sb06/team03/mopl/entity/Followee.java:60-66` | An unfollow by a follower removes this follower, lowers the count by one and registers one event; any other changes nothing. |
| `Follows.Followee.AddFollower` | `mopl-user/src/main/java/org/codeit/sb06/team03/mopl/entity/Followee.java:45-58` | Somebody new, and not oneself, joins the followers, the count rises by one and one event is registered; following oneself and following twice change nothing. |
| `Follows.Followee.RemoveFollower` | `mopl-user/src/main/java/org/codeit/sb06/team03/mopl/entity/Followee.java:60-66` | A follower leaves, the count falls by one and one event is registered; for anybody else nothing changes. |
| `Follows.FollowEventListener.HandleFollowEvents` | `mopl-playlist/src/main/java/org/codeit/sb06/team03/mopl/event/FollowEventListener.java:37-46` | An event adds or removes its pair, again as often as it comes. |

## Left out

- `WatcherCountSync.EveryRunMatches`: assumes successful calls, because a failed call still overwrites the remembered rooms; `WatcherCountSync.FailedSyncRepairedIff` is the exact condition.
- `SagaLossless.CompensationIsLossless`: assumes that purges spare what is wanted, and allows revived curations; both limits are exact (`SagaLossless.KeptThroughoutIff`, `SagaLossless.NeverRevivedIff`).
- `SessionTimes.IncreasingTimesRefineQueues`: assumes strictly increasing register times, because two logins in one millisecond are ordered by id (`SessionRuns.TieEvictsNewer`); evictions are fair without it.
- The saga strategy over gRPC: one straight-line method, in which a client deadline can hide a delete that was applied.
- Parsing of payloads and the recovery of ids from malformed ones: events are well formed.
- Hibernate's own behaviour: soft-delete filters on bulk statements, optimistic-lock retries, rollback-only transactions. Each query is modelled as written.
- Metadata events and the back-fill of playlist's content view during a saga: they can show a hidden view again, or make a new one after a purge.
- contentCount of playlists: not kept by saga deletes and restores.
- Subscriptions, playlist listings and their updatedAt cursor, and the Redis listing of watching sessions, whose second page repeats the cursor row: not paginated as the listings here are.
- Signing and verification of tokens, OAuth, gateway filters, passwords: a token is a fresh id with an owner and an expiry.
- Redis failures, expiry of the routing table, restarts that lose in-memory state, and emitters that fail with anything but an I/O error.
- Replay across instances: an instance keeps for replay only what was sent from it, and the model keeps that.
- Floating-point error of doubles in averages and scores.
- The second query of a page of contents, which loads the rows found and their tags: it reads the same snapshot.
- Letter case in keyword and address filters, and unused tag filters.
- Review texts, review listings, content metadata, images, external catalogues, direct messages, notification creation.
