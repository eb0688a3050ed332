# Verification model

A Dafny model of the message backbone of the WeCom customer-service gateway: how an inbound message is queued,
locked, deduplicated, processed and recovered, and how a reported bug becomes a draft, a queued submission, one
record of the external table, and notifications about its progress. `dafny verify dfyconfig.toml` checks everything.

How it is organised:

- **Delivery protocol.** `QueueState` holds the Redis lists and what each Lua script does to them, with conservation,
  the retry budget and the order of main over any sequence of list operations. `RedisQueue` is the queue class with
  its loops, proved against those operations. `Delivery` is the transition system: workers and maintenance rounds of
  any number of consumers interleave at every await over one shared Redis; a command may fail before or after it took
  effect, consumers crash, workers are cancelled, heartbeats lapse. `DeliveryLocks`, `DeliveryRecovery`,
  `DeliveryHeld`, `DeliveryNoLoss`, `DeliveryReplies`, `DeliveryUsers`, `DeliveryDead` and
  `DeliveryHistory` prove the whole-run results; `DeliveryTraces` that a dead
  consumer can be recovered and why at-least-once needs its assumptions; `DeliveryNeeds` why the other results need
  theirs. `MessageProcessor` is the acquire / send / mark_done / release bracket of one call, `Dedup` the two dedup
  stores. `Wrappers` holds what every file shares: a missing value, and how a Redis command ends.
- **Bug drafts.** `BugDrafts` has the tables and, as functions, what each operation does to them; `BugAssistant` is
  the class whose methods change the rows one at a time and roll back on a refused event, proved equal to those
  functions; `BugDraftRules`, `BugDraftSteps` and `BugDraftRuns` the invariants and the results over runs;
  `BugMessages` the choice of an event for a chat text, with the word lists, and `BugChoices` what a text does to the
  draft it is said about; `Text` the string operations.
- **Synchronization.** `IssueSync` is the protocol of sync jobs, chat, crashes and the external table;
  `IssueSyncService` one call with its upload loop, proved to be a run of that protocol.
- **Issue progress** (`IssueStatus`), **timers** (`Timers`), and the **WeCom message envelope** (`Utf8`, `Base64`,
  `WecomCrypto`).

Assumptions appear in the theorems as named predicates over runs, and each is tied to the one message, draft or
consumer the result is about where that is possible:

- `Timely` (a run ends within its lease) and `NoLockFault` (no lock command fails, so none fails open), for
  `OneRunPerUser`, `OneRunPerMessage` and `ReadsOwnSaves`. `LateRunOverlaps` and `FailOpenOverlaps` are runs of two workers inside at
  once, each breaking one of the two only.
- `Beats` (the consumer in question has its heartbeat until it is gone), for `NeverRobbed`; `BeatsTimely` (serving and
  stopping consumers have theirs), `HeardFor` (no failed run of this message has its release lost) and an id other
  than `NAMELESS`, for `AtLeastOnce`. `LateHeartbeatLoses`, `LostReleaseLoses` and `NamelessMessageLost` are runs that
  lose a message, each breaking one of these three only.
- `OrderlyFor` (`Timely`, all deliveries of the message have one sender, and its done key has not run out) and
  `NoFailOpenFor` (neither the lock nor this message's acquire fails open), for `RepliesBounded`.
  `LateDeliveryAnswersTwice` and `FailOpenAcquireAnswersTwice` are runs with two uninterrupted replies without the
  done window and without the working acquire. That one message id has one sender, and `Timely` and the lock for this
  result, have no such run here.
- `Faithful` (the external search misses no record of the draft) and `Prompt` (no write request outlives its call),
  for `ExactlyOne`; `SwallowedSearchDuplicates` and `LateWriteDuplicates` show both needed.
- `Serial` (one timer coordinator per key), for `CancelSparesNewer`; `RacingCancelLosesTimer` shows it needed.

## Model

| member | source | states |
|---|---|---|
| QueueState.Conservation | app/services/message_queue.py:71-104 | Whatever sequence of list operations any consumers issue, each accepted envelope is in exactly one of main, one processing list, dead or acknowledged, and nothing else is anywhere |
| QueueState.OnlyThere | app/services/message_queue.py:495-518 | An envelope found in a processing list is in no other list, so moving it by value moves exactly that delivery |
| QueueState.RetryBudget | app/services/message_queue.py:140-153 | Attempt counters count exactly the failures, stay below the limit outside dead, and n accepted envelopes allow at most n times the limit counted failures |
| QueueState.RequeueMembers | app/services/message_queue.py:71-81 | The requeue script moves only listed items that were still in the owner's list and leaves the owner's other items there |
| QueueState.OrderStep | app/services/message_queue.py:71-91 | For every list operation: main stays in acceptance order if and only if the operation puts no delivery back behind one accepted later |
| QueueState.GiveBackOrder | app/services/message_queue.py:453-457 | A lock-busy requeue keeps the order exactly when main is empty or its newest envelope was accepted before the one given back |
| QueueState.AcceptanceOrder | app/services/message_queue.py:9 | The queue is first in, first out in a run exactly as long as no requeue, retry or recovery puts a delivery back behind one accepted later; while it is, the next delivery taken is the one of main accepted first |
| QueueState.NotFifo | app/services/message_queue.py:453-457 | One lock-busy requeue is enough to break that: a delivery given back is taken again only after one accepted later |
| RedisQueue.RedisMessageQueue.Enqueue | app/services/message_queue.py:121-205 | True exactly when the message serializes and its push is answered; a push whose answer is lost still queues the envelope and returns False; an unserializable message queues nothing, leaves a placeholder in the dead-letter list unless that push fails too, and returns False |
| RedisQueue.RedisMessageQueue.BlMove | app/services/message_queue.py:386-400 | Takes the oldest envelope of main into the consumer's own processing list, or nothing when main is empty |
| RedisQueue.RedisMessageQueue.ClaimScript | app/services/message_queue.py:95-104 | The scan rewrites the first match in the own list and reports whether there was one; no other list changes |
| RedisQueue.RedisMessageQueue.RequeueScript | app/services/message_queue.py:71-81 | The loop over the listed items leaves the two lists as the specification of the script says and counts what moved |
| RedisQueue.RedisMessageQueue.RecoverProcKey | app/services/message_queue.py:330-381 | Releases the key of every item that has one, and moves the snapshot exactly when every release was confirmed, also when an unconfirmed release did take effect |
| RedisQueue.RedisMessageQueue.MoveTo | app/services/message_queue.py:495-518 | One atomic remove-and-push of the given delivery, nothing if it is gone or the script was not applied |
| RedisQueue.RedisMessageQueue.Settle | app/services/message_queue.py:426-493 | Busy goes back uncounted, a failure is retried or buried and counted, a cancellation leaves the list alone, a success is acknowledged, and owed unless the acknowledgement was answered |
| RedisQueue.RemoveFirst | app/services/message_queue.py:86-91 | The scan of LREM removes the first occurrence and says whether there was one |
| Delivery.ProtocolConserves | app/services/message_queue.py:210-558 | Every execution, with any faults, crashes and mistaken recoveries, conserves envelopes and keeps the retry budget |
| Delivery.SharedKey | app/services/message_queue.py:528-530 | Two messages share lock and conversation state exactly when their users and scopes are one, where a missing user is "anon", a missing kf account is "kf" and an account called "bot" is not told from the bot; two named users never do |
| Delivery.KeyTexts | app/services/message_queue.py:530 | As text the keys of users without a colon differ whenever user or scope differ; with a colon they can coincide |
| Delivery.DedupKeys | app/services/message_processor.py:99 | Messages are deduplicated by their ids alone, except that those without one pass for the one called "unknown" |
| DeliveryUsers.ReadsOwnSaves | app/services/message_processor.py:138-139 | In every execution without lock faults and with runs shorter than the lease, a run reads exactly what the runs of its own user and scope saved, in order |
| DeliveryUsers.SavesSpareOthers | app/services/message_processor.py:138-139 | In every execution at all, a save by one user's run leaves what another user's run reads unchanged |
| DeliveryUsers.BusyByOwnUser | app/services/message_queue.py:533-544 | In every execution at all, a run finds its lock busy only if a run of the same user and scope set it less than a lease ago |
| DeliveryUsers.OthersLeaveLock | app/services/message_queue.py:528-544 | No step of another user's run changes whether a run finds its lock busy |
| DeliveryDead.DeadMeansGivenUp | app/services/message_queue.py:402-493 | In every reachable state what is dead cannot be decoded or delivered, or has used up its attempts; and what cannot be is never locked, processed, retried, given back or acknowledged |
| DeliveryDead.UndeliverableBuried | app/services/message_queue.py:402-447 | A worker that meets such a delivery moves it to dead, uncounted, and goes on |
| DeliveryLocks.OneRunPerUser | app/services/message_queue.py:520-558 | Without lock faults and with runs shorter than the lease, at most one run per user and scope is inside process, and each conversation state is the sequence of all saves made to it |
| DeliveryLocks.ReleaseSparesSuccessor | app/services/message_queue.py:65-67 | In every execution, with expired leases, locks that failed open, crashes and lost commands: a worker's release leaves in place any lock that carries another holder's token |
| DeliveryRecovery.ExposedWereCleared | app/services/message_queue.py:330-381 | In every reachable state a recovery step moves only snapshot items still in the owner's list whose dedup key was cleared by this recovery; one unconfirmed release moves nothing |
| DeliveryRecovery.ClearedWasAbsent | app/services/message_queue.py:345-365 | An id a recovery holds as cleared had no dedup key at some moment of the run after its snapshot was taken |
| DeliveryRecovery.ClearMeans | app/services/message_queue.py:345-365 | An item of a recovery has a key to release exactly when it decodes, has an id and a known adapter; an unanswered release ends the recovery without a move |
| DeliveryRecovery.NeverRobbed | app/services/message_queue.py:227-315 | A consumer that has its heartbeat from its start until it is gone, through the requeue of its own list at the end of stop, never has its processing list changed by another process |
| DeliveryNoLoss.AtLeastOnce | app/services/message_queue.py:386-515 | Message by message: in every reachable state an accepted message with an id was processed by some run, or a delivery of it is still in main, a processing list or dead, whatever is lost or goes wrong for other messages |
| DeliveryReplies.OneRunPerMessage | app/services/message_queue.py:520-558 | In every execution without lock faults and with runs shorter than the lease, no two live runs process the same message id |
| DeliveryReplies.RepliesBounded | app/services/message_processor.py:546-612 | For one message id while its own done key lasts: successful sends number at most one plus the interruptions, lost mark_done writes and crashes between its send and mark_done |
| DeliveryHistory.HistoryMeans | app/services/message_processor.py:546-612 | What counts above as processed, as a reply and as an interruption is exactly the actions that were such |
| DeliveryHistory.RefusedByOwn | app/services/dedup_store.py:46-50 | In every execution an answered acquire is refused only because a run of the very message marked it done less than 600 seconds ago or acquired it less than the processing ttl ago |
| DeliveryHistory.OutcomeMeans | app/services/message_processor.py:587-612 | In the protocol a run ends cancelled exactly when it was cancelled, returns exactly when its message was taken, its send refused or everything after its mark passed, and otherwise raises |
| DeliveryHistory.ReleaseMeans | app/services/message_processor.py:609-612 | The processing key is released exactly when the try block was entered and ended before its mark passed |
| DeliveryHistory.BookingMeans | app/services/message_queue.py:453-493 | What returned is acknowledged, what raised is retried or buried, and what was cancelled stays in the processing list |
| DeliveryHistory.OwedMeans | app/services/message_queue.py:321-328 | An acknowledgement is owed from an attempt that was not answered until one that is |
| DeliveryTraces.Recoverable | app/services/message_queue.py:289-381 | Wherever a consumer stopped, once its heartbeat lapsed another one can move all its deliveries back to main with their keys absent, so each can be acquired again |
| DeliveryTraces.LostReleaseLoses | app/services/dedup_store.py:106-114 | One lost release after a failed run loses a message: the retry is skipped and acknowledged |
| DeliveryTraces.NamelessMessageLost | app/services/message_processor.py:99-123 | A message without an id, cancelled between acquire and the try block and requeued by a clean stop, is skipped and acknowledged, because recovery never releases the key it was given |
| DeliveryNeeds.LateHeartbeatLoses | app/services/message_queue.py:289-381 | A heartbeat that lapses while its consumer works loses a message although no release is lost: the key is confirmed absent, then set by the suspected consumer, which crashes, and the exposed delivery is skipped and acknowledged |
| DeliveryNeeds.FailOpenOverlaps | app/services/message_queue.py:533-540 | A lock command that fails lets a second run inside next to one that holds the lock |
| DeliveryNeeds.LateRunOverlaps | app/services/message_queue.py:531-558 | So does a run that is still inside when its lease ends, without any failure |
| DeliveryNeeds.FailOpenAcquireAnswersTwice | app/services/dedup_store.py:71-78 | A dedup acquire that fails open answers an answered message again |
| DeliveryNeeds.LateDeliveryAnswersTwice | app/services/dedup_store.py:38-44 | So does a redelivery after the done window, without any failure |
| MessageProcessor.Processor.Process | app/services/message_processor.py:114-612 | The bracket with its try and finally leaves dedup keys, outcome and number of sends as the specification says, for every way each await can end: store commands that fail before or after they took effect, cancellation at acquire, mark_done and release among them |
| MessageProcessor.Processor.Body | app/services/message_processor.py:131-587 | The try block: how far it got, what it appended to the conversation state of the message's own user and scope, that every other one stays as it is, whether it sent and marked; empty content and human handoff mark without sending |
| MessageProcessor.TakenAgain | app/services/message_processor.py:609-612 | Exactly when a message nobody held can be acquired again after a call of it, for every failure and cancellation of acquire, mark_done and release |
| MessageProcessor.ReturnsMean | app/services/message_processor.py:160-183 | A call returns normally if and only if it skipped a taken message, had its send declined and was not cut off releasing, delivered and marked its reply with everything after it passing, or had none to send and marked that |
| MessageProcessor.SendsMean | app/services/message_processor.py:546-552 | A call sends, once, if and only if it comes to its send and the send is accepted |
| MessageProcessor.CancelledMeans | app/services/message_processor.py:587-612 | A call that entered its try block ends cancelled if and only if an await it came to was cancelled, the release in its finally included |
| MessageProcessor.SendsOnce | app/services/dedup_store.py:46-56 | Once a message was marked done, answered or not, no call whose acquire is answered sends a reply within the window |
| Dedup.SameAnswers | app/protocols/base.py:213-256 | On any sequence of calls the in-memory and the Redis store answer alike if and only if no acquire falls on the exact expiry instant of its message's processing entry |
| Dedup.TieDiffers | app/protocols/base.py:219-233 | At such an instant they differ |
| Dedup.AnswersAreOwn | app/services/dedup_store.py:46-114 | Without ties every answer depends only on that message's own calls, despite the global sweep |
| Dedup.AnswersAreHistory | app/services/dedup_store.py:46-114 | An acquire is refused exactly when the message was marked done less than the ttl ago, or an acquire of it was granted less than the ttl ago and not followed by a mark or a release |
| Dedup.InMemoryDedupStore.Acquire | app/protocols/base.py:213-233 | The lazy sweep of both maps, then the refusal test, exactly as specified |
| Dedup.InMemoryDedupStore.PopStale | app/protocols/base.py:218-226 | The sweep loop keeps exactly the entries that are not older than the ttl |
| Dedup.RedisDedupStore.Acquire | app/services/dedup_store.py:61-78 | The acquire script, and the permission to go on when Redis fails, whether or not the script took effect |
| Dedup.RedisDedupStore.ReleaseProcessing | app/services/dedup_store.py:106-114 | True exactly when the delete was answered, and then the key is absent; an applied delete whose answer was lost is not confirmed |
| BugDraftRuns.DraftInvariant | app/services/bug_assistant_orchestrator.py:187-572 | After any run: matching is never stored; awaiting has a candidate, ready has none; awaiting, ready, queued, submitted and linked have a nonblank description; a suspended draft keeps all this for the state it will resume to; the history is a path that ends in the current state |
| BugDraftSteps.HandleOk | app/services/bug_assistant_orchestrator.py:129-316 | Every call of handle keeps the database consistent, commits nothing when it refuses, and otherwise answers with the identity's one current draft, its state, the reported issue, and the action that state calls for; a candidate found is stored and offered, none found is none kept, and only a search that raised on a described draft is to be tried again |
| BugDraftRules.EnsureOk | app/services/bugtrack_service.py:225-382 | ensure_draft leaves every key of the identity bound to the draft it returns, which is neither expired nor superseded |
| BugDraftRules.RetiredOk | app/services/bugtrack_service.py:249-280 | A draft that is expired or superseded, even a queued one, keeps its submission rows consistent |
| BugDraftRuns.HistoryGrows | app/services/bugtrack_service.py:187-207 | Histories are only ever extended |
| BugDraftRuns.FinalAbsorbs | app/services/bug_assistant_orchestrator.py:45-50 | Linked, submitted and abandoned drafts keep state, status, candidate, report and outbox row through every run |
| BugDraftRuns.StartAfterFinal | app/services/bug_assistant_orchestrator.py:199-208 | START_REPORT on a final draft leaves it untouched, opens exactly one new draft and binds the identity to it |
| BugDraftRuns.SuspendResume | app/services/bug_assistant_orchestrator.py:513-572 | RESUME restores the state the matching SUSPEND left, with the same candidate, whatever happened while the draft stayed suspended |
| BugDraftRuns.OneSubmission | app/services/bug_assistant_orchestrator.py:458-511 | A submitted draft keeps its outbox row, report and issue for ever, and no other local issue is ever created for it |
| BugDraftRuns.NoIssueWithoutSubmission | app/services/bug_assistant_orchestrator.py:466-477 | A draft without an outbox row has no local issue |
| BugDraftRuns.ConfirmAgain | app/services/bug_assistant_orchestrator.py:397-462 | Repeating CONFIRM_SUBMIT or CONFIRM_MATCH answers with the same issue and adds no issue, report, subscription or outbox row |
| BugDraftRuns.ConfirmSubscribes | app/services/bug_assistant_orchestrator.py:652-682 | A confirmation subscribes the speaker, and nobody else, to the issue it answers with and the report refers to |
| BugDraftRuns.PatchExtends | app/services/bug_assistant_orchestrator.py:210-221 | A supplement is appended to the description of the bound draft, never replaces it, and renews its expiry |
| BugDraftSteps.ExternalIssueOk | app/services/bug_assistant_orchestrator.py:595-624 | Linking finds or creates the one external issue of the record |
| BugDraftSteps.SyncSuccessOk | app/services/bug_issue_sync_service.py:195-221 | A successful synchronization keeps the database consistent, also for a draft that was superseded or expired meanwhile |
| BugDraftSteps.SyncFailureOk | app/services/bug_issue_sync_service.py:183-194 | So does a failed one, which queues such a draft again |
| BugDraftRules.PatchedDescription | app/services/bugtrack_service.py:313-324 | Patching never blanks a description |
| BugMessages.ChosenEventRefused | app/services/bug_assistant_message_service.py:452-495 | Exactly when the event chosen for a text is refused: on a draft that is not overdue, only a switch to Q&A on a draft that takes no more changes |
| BugMessages.CollectingRefused | app/services/bug_assistant_orchestrator.py:223-237 | A collecting event is refused exactly when PATCH_REPORT meets a draft that takes no more changes |
| BugMessages.DecisionRefused | app/services/bug_assistant_orchestrator.py:157-185 | A deciding event is refused exactly when the draft it ends up on does not take it |
| BugChoices.AwaitingSaid | app/services/bug_assistant_message_service.py:452-470 | A text about an offered candidate: a Q&A switch sets the draft aside; else a cancel word abandons it; else a reject word or marker, even one containing a confirm marker, makes it ready without candidate or report; else a confirm word or marker links it to the candidate's record; anything else supplements it |
| BugChoices.ReadySaid | app/services/bug_assistant_message_service.py:471-482 | A text about a draft ready to submit: Q&A switch, cancel word, confirm word (a new local issue, report and outbox row) or supplement, in that order |
| BugChoices.AsideSaid | app/services/bug_assistant_message_service.py:483-494 | A resume word takes a suspended draft up where it was left; any text but that and a Q&A switch supplements it, and likewise a collecting one |
| BugChoices.FreshSaid | app/services/bug_assistant_message_service.py:176-190 | Without an open draft a Q&A switch is refused and any other text opens one described by it; an active draft it replaces is superseded, any other is left alone |
| BugChoices.OverdueSaid | app/services/bugtrack_service.py:249-280 | On an overdue draft a text that answers its question is refused; any other expires it and is taken on a new draft bound in its place |
| BugDrafts.KeysMeet | app/services/bugtrack_service.py:141-185 | Two identities have a binding key in common exactly when they share the channel and a nonblank session or user; the session is looked up first |
| BugDraftRuns.AttemptsCounted | app/services/bug_issue_sync_service.py:112-115 | After every run an outbox row counts the attempts to synchronize its draft, and is being processed exactly until the first one ends |
| BugDraftSteps.SyncSuccessWrites | app/services/bug_issue_sync_service.py:195-221 | A successful commit makes draft, report, issue and outbox row submitted under the record, keeps earlier times, and writes nothing else |
| BugAssistant.BugTables.HandleEvent | app/services/bug_assistant_orchestrator.py:129-185 | The handlers, changing rows one at a time and rolling back on a refusal, leave the tables the specification says |
| BugAssistant.BugTables.Ensure | app/services/bugtrack_service.py:225-382 | Choice, expiry, superseding, patching, binding and event of ensure_draft, row by row |
| BugAssistant.BugTables.PatchFields | app/services/bugtrack_service.py:313-324 | The field loop replaces exactly the fields with a nonblank new value |
| BugAssistant.BugTables.UpsertBindings | app/services/bugtrack_service.py:162-185 | The binding loop binds every key of the identity |
| BugAssistant.BugTables.FindBoundDraft | app/services/bugtrack_service.py:141-160 | The search loop returns the draft of the first bound key |
| BugAssistant.BugTables.ChangeState | app/services/bugtrack_service.py:409-435 | The transition writes state, status and closing time and records where it came from |
| BugAssistant.BugTables.MatchCandidates | app/services/bug_assistant_orchestrator.py:239-316 | The draft and reply after each outcome of the candidate search |
| BugAssistant.BugTables.ConfirmMatchEvent | app/services/bug_assistant_orchestrator.py:397-436 | Linking: external issue, report, subscription and draft |
| BugAssistant.BugTables.ConfirmSubmitEvent | app/services/bug_assistant_orchestrator.py:458-511 | Submission: local issue, report, subscription, outbox row and draft |
| IssueSync.ExactlyOne | app/services/bug_issue_sync_service.py:60-241 | Over any interleaving of sync jobs, chat, crashes and ambiguous failures: at most one external record per draft, and outbox succeeded means draft, report and issue are submitted and hold the id of a record that is in the table |
| IssueSync.CommitNeverBlocked | app/services/bug_issue_sync_service.py:68-114 | A job that finished its calls still finds the draft as it was when it began |
| IssueSync.SwallowedSearchDuplicates | app/services/feishu_bitable.py:258-276 | From the empty database, for any report and confirmation: a search error reported as no records makes a retry add a second record of the draft |
| IssueSync.LateWriteDuplicates | app/services/feishu_bitable.py:306-329 | From the empty database: so does an add request that is applied after its call gave up, although every search is faithful |
| IssueSync.ReportGetsQueued | app/services/bug_assistant_orchestrator.py:458-511 | A described report without a duplicate is queued by one confirmation |
| IssueSyncService.SyncService.Sync | app/services/bug_issue_sync_service.py:60-241 | One call: refusals, early return, upload loop, search, update or add, and both commits, for every answer of the external table |
| IssueSyncService.SyncService.UploadAttachments | app/services/bug_issue_sync_service.py:126-150 | The upload loop, stopping at the first failure |
| IssueSyncService.AttemptRefinesProtocol | app/services/bug_issue_sync_service.py:164-221 | What a whole call computes is what the protocol's steps lead to |
| IssueSyncService.AttemptMeans | app/services/bug_issue_sync_service.py:164-221 | An attempt submits the draft exactly when uploads and search worked and the record found was updated or one was added, under that record; the table gains a record exactly when an addition was applied |
| IssueSyncService.UploadSucceeds | app/services/bug_issue_sync_service.py:127-150 | An attempt succeeds exactly when no upload it needs fails, and then every attachment's token is sent |
| IssueSyncService.UploadMarks | app/services/bug_issue_sync_service.py:126-150 | The first attachment whose upload fails is marked failed; those before it have their token, synchronized if it is new; those after it are untouched; the tokens before it are sent in order |
| IssueSyncService.UploadKeepsTokens | app/services/bug_issue_sync_service.py:128-130 | No attempt, failed or not, gives up a token |
| IssueSyncService.UploadOnce | app/services/bug_issue_sync_service.py:128-130 | After a success nothing is uploaded again and the same tokens are sent |
| IssueStatus.EventsAreChanges | app/services/bug_issue_status_service.py:175-222 | While an issue's snapshot is not replaced as a whole, its status events are exactly the changes between its successive nonblank observations, whatever happens to other issues and to subscriptions, and the last observation is what is stored |
| IssueStatus.ChainHolds | app/services/bug_issue_status_service.py:194-222 | After every run from the empty store, with links and synchronizations that replace snapshots: for every issue the events since its snapshot was last replaced form a chain without repeats that ends in the stored progress |
| IssueStatus.ChangeIsAnnounced | app/services/bug_issue_status_service.py:213-260 | Each event is delivered once to each subscription active at that moment and to nobody else: to its user, or its key when it has none, in its session and channel, pending exactly on the push channel; the returned ids are exactly those pending |
| IssueStatus.ObservationStored | app/services/bug_issue_status_service.py:181-212 | A blank observation changes nothing; any other is stored, a nonblank status becomes the issue's, and nothing else changes |
| IssueStatus.ReplacingStores | app/services/bug_assistant_orchestrator.py:621-623 | Linking stores the candidate's progress and status, synchronizing the record and "submitted" without progress, and nothing else changes |
| IssueStatus.DeliveriesHold | app/services/bug_issue_status_service.py:224-257 | After every run from the empty store, with subscriptions added, renewed and ended, no subscriber has two deliveries of one event, and each delivery is of an event of the issue subscribed to |
| IssueStatus.SubscribeOk | app/services/bug_assistant_orchestrator.py:652-682 | Subscribing keeps one row per issue, channel and subscriber, and disturbs no delivery |
| IssueStatus.SubscribeTells | app/services/bug_assistant_orchestrator.py:652-682 | Subscribing makes the subscriber's one row active under its latest user and session and leaves the other rows alone |
| IssueStatus.ReconcileAccounts | app/services/bug_issue_status_service.py:133-173 | A pass counts every issue once, makes one event per change, and returns exactly the deliveries to push among those it created |
| IssueStatus.ReconcileFailures | app/services/bug_issue_status_service.py:140-164 | Failed are exactly the issues whose record could not be fetched or stored |
| IssueStatus.IssueStatusService.Reconcile | app/services/bug_issue_status_service.py:133-173 | The loop over the issues leaves store and report as specified |
| IssueStatus.IssueStatusService.ApplyObservation | app/services/bug_issue_status_service.py:175-260 | One observation: snapshot, status, event and deliveries |
| IssueStatus.IssueStatusService.Notify | app/services/bug_issue_status_service.py:224-260 | The loop over the subscriptions creates the deliveries that ChangeIsAnnounced addresses |
| Timers.PendingOrLeft | app/services/pending_timer_store.py:142-221 | In every run each stored task is pending under its own key or left the store once, for one reason; it lapsed only after its full time to live; no key holds two tasks |
| Timers.FireTakesEffect | app/tasks/bugtrack_tasks.py:92-113 | A fire clears its timer, and nothing else, exactly when the store answers and its task was stored less than the time to live ago and was not cancelled, replaced or fired; otherwise it changes nothing |
| Timers.PutStores | app/services/pending_timer_store.py:170-177 | A stored timer is the pending one of its key with its full time to live; the one before it has left as replaced; other keys are as they were |
| Timers.CancelClears | app/services/pending_timer_store.py:192-198 | A cancel that reaches the store leaves nothing pending under its key and every other key as it was |
| Timers.CancelRemovesRead | app/services/timer_coordinator.py:75-104 | With one coordinator per key a cancel removes exactly the timer it read: its task has left, as cancelled if it was pending, and no later fire of it changes anything |
| Timers.CoordinatorWorks | app/services/timer_coordinator.py:75-145 | An undisturbed cancel leaves nothing pending under its key, an undisturbed arm exactly its new task; a pending timer has left as cancelled; other keys and coordinators are as they were |
| Timers.FailureMeans | app/services/timer_coordinator.py:82-145 | A failure to cancel does not keep a coordinator from arming; a failure to schedule or store makes it give up; neither touches the store |
| Timers.CancelSparesNewer | app/services/timer_coordinator.py:75-104 | With one coordinator per key, a cancel spares every timer other than the one it read |
| Timers.RacingCancelLosesTimer | app/services/timer_coordinator.py:84-94 | Without that, a slow cancel deletes a timer armed after its read |
| Timers.LeavesOnce | app/services/pending_timer_store.py:154-163 | A task that left never comes back and its cause never changes |
| Timers.RedisPendingTimerStore.ClearIfMatch | app/services/pending_timer_store.py:208-221 | The compare-and-delete does to the live entries what a fire does in the protocol |
| Timers.RedisPendingTimerStore.Clear | app/services/pending_timer_store.py:192-206 | Returns and removes the live entry of the key |
| Timers.PlanFor | app/services/timer_coordinator.py:107-145 | The last arm marker wins over any cancel; one without a state does nothing at all |
| WecomCrypto.RoundTrip | app/crypto/wecom_crypto.py:55-212 | What is encrypted for one receive id decrypts with any receive id to the same text, never through the fallback, for every text under 2^32 bytes and every 43-character key |
| WecomCrypto.EncryptFails | app/crypto/wecom_crypto.py:178-190 | Encryption fails exactly on a key of another length or a message too long for the length field |
| WecomCrypto.DecryptFails | app/crypto/wecom_crypto.py:68-85 | Decryption fails exactly on the key length, on text that is no base64, or on data that is no whole blocks |
| WecomCrypto.CiphertextFormat | app/crypto/wecom_crypto.py:178-201 | What is sent is the base64 of the padded frame, each block encrypted after combination with the cipher block before it, the first with the first 16 of the 32 key bytes |
| WecomCrypto.FrameLayout | app/crypto/wecom_crypto.py:187-191 | Where the random bytes, the big-endian length, the message and the receive id are in a frame |
| WecomCrypto.ParseMeans | app/crypto/wecom_crypto.py:101-128 | Exactly which bytes are read as which message, for any receive id |
| WecomCrypto.UnpadMeans | app/crypto/wecom_crypto.py:87-99 | Exactly what is dropped as padding |
| WecomCrypto.CbcRoundTrip | app/crypto/wecom_crypto.py:84-85 | CBC decryption undoes CBC encryption over any invertible block function |
| WecomCrypto.PadRoundTrip | app/crypto/wecom_crypto.py:193-197 | Padding fills whole 32-byte blocks with 1 to 32 bytes that each say how many they are, and comes off again |
| WecomCrypto.FrameRoundTrip | app/crypto/wecom_crypto.py:101-128 | A frame parses back to its message |
| WecomCrypto.CiphertextIsPlain | app/crypto/wecom_crypto.py:200-208 | The ciphertext cannot end the CDATA section it is put in |
| Base64.RoundTrip | app/crypto/wecom_crypto.py:201 | Base64 decoding undoes encoding |
| Base64.DecodesPadded | app/crypto/wecom_crypto.py:77 | A key of 43 characters with one padding character decodes to 32 bytes |
| Base64.GroupNumber | app/crypto/wecom_crypto.py:201 | Four characters write the number that three bytes write, high end first |
| Utf8.EncodedShape | app/crypto/wecom_crypto.py:189 | A character's bytes have the marks and carry the bits RFC 3629 says |
| Utf8.RoundTrip | app/crypto/wecom_crypto.py:189 | Strict decoding undoes encoding |
| Utf8.Canonical | app/crypto/wecom_crypto.py:116 | Bytes that decode are the encoding of what they decode to |

## Left out

- Where the repository's own words differ from its code, the model follows the code. The docstring of `process`
  (app/services/message_processor.py:97) says no exception leaves it; it re-raises (587-599). The queue calls itself
  first in, first out (app/services/message_queue.py:9); a lock-busy requeue puts a delivery behind newer ones, as
  `NotFifo` shows, and `AcceptanceOrder` says when the order holds.
- DeliveryNoLoss.AtLeastOnce: processed means marked done or a send that was refused, because a refused send returns normally and is acknowledged (app/services/message_processor.py:549-552); nothing is claimed about the reply reaching the user.
- DeliveryLocks.OneRunPerUser: lock commands that fail open are excluded, as the code then runs without the lock (app/services/message_queue.py:533-540).
- Delivery.ProtocolConserves: the legacy global processing list and its delayed migration, and the choice of a queue at start-up are not part of the system; nor is the placeholder of a message that cannot be serialized, which never is an envelope (`Enqueue` has it). While a consumer is stopping, any step of a maintenance round is allowed, although only the round under way when the stop began goes on (app/services/message_queue.py:231, 273): the model has more executions than the code.
- Delivery.SharedKey: keys are pairs of user and scope; Redis joins them with a colon, which KeyTexts shows to be the same for users without one.
- MessageProcessor.Processor.Process: one call happens at one instant of the dedup clock; runs that outlive a ttl are the subject of the transition system instead.
- How a reply is computed, intent routing, media handling, Chatwoot, and every HTTP client are abstract outcomes. So is the conversation store's own expiry.
- `mark_sent` is unused by the processor.
- BugDraftSteps.HandleOk: stated for one identity and without an explicit draft id, so that a superseded or expired draft is never bound; rows of several identities sharing a key are not covered.
- The candidate search is an open choice of a candidate with a nonempty id, none, or an error; scoring is not modelled.
- Two suspensions of one draft are ordered by insertion; the code orders by creation time, which breaks ties by a random id.
- Turns, route sessions, the legacy Dify endpoints (which write a draft's state without a transition), advisory locks and the ORM are left out; each call is one transaction.
- Lower-casing in `_event_for` is an arbitrary function of the text.
- IssueSync.ExactlyOne: assumes that nobody but this service writes draft ids into the external table, that a job dies when its database lock is lost, and that the search filter on a draft id matches no other draft's records.
- The contents of an external record and of notification messages are left out, and so is the query that selects subscribed issues.
- `deliver` and `acknowledge` of notifications are left out: two overlapping deliveries can both send, so only a bound by the attempt counter would hold.
- Timers.PendingOrLeft: the countdown is not tied to the time to live; a configured countdown of more than 1900 seconds would make every fire find its entry lapsed, as FireTakesEffect shows.
- Parsing of timer markers, in-memory timer storage and the two-user collision of concatenated store keys are left out.
- WecomCrypto.KeyAccepted: for keys of alphabet characters; Python's decoder skips other characters, which may let a longer text through as a shorter key.
- WecomCrypto.RoundTrip: the XML fallback is a result of its own and its text search is not modelled; AES is any invertible block function, SHA-1 signatures and the XML envelope are left out, and texts with unpaired surrogates, which Python refuses to encode, do not exist in the model.
