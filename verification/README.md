# Messaging service: verified protocols

A Dafny model of the stateful core of the multi-tenant WhatsApp service in `backend/src`, and of the token-refresh
interceptor of its front end. Each component is a state machine over database rows (or module variables), written as a
specification (`Step`, `Exec`) over which the promises are proved for every run, and as a class whose methods write
the state in the order the code does and are proved equal to the specification. The `Rows` modules read the same steps
the other way round, row by row: which events may change a recipient, a campaign, a message, a conversation, a user, an
invitation, a session or an engine record, and to exactly what. The statements about whole runs are built on them.

| files | component |
|---|---|
| `CampaignModel`, `CampaignInvariant`, `CampaignTheorems`, `CampaignRows`, `CampaignService` | campaign create, edit, launch, cancel, retry, import, clone; the queue worker's run; acknowledgements |
| `Pacing` | delays between main sends, as integer and real arithmetic |
| `Conversations`, `ChatSync`, `ChatSyncKeys`, `ChatSyncRaces` | JIDs, orphan re-attachment, concurrent chat sync and its races |
| `Inbox`, `InboxRows`, `InboxSync`, `InboxUnread`, `InboxService`, `CampaignInbox` | received and outgoing webhooks, campaign conversation writes, sessions, one conversation per number, unread counters, redelivery |
| `CursorPaging` | `getMessages` and the walk along `nextCursor` |
| `Reactions` | the reaction map and its two writers |
| `TokenRefresh` | the 401 interceptor, its waiter queue and its termination |
| `Team`, `TeamRows` | signup, registration, invitations, roles, manager links, removal |
| `EngineRegistry`, `EngineRows` | engine registration, allocation and session counters |
| `Common` | options, duplicate-free listings, set sizes, white space |

What an operation cannot decide by itself is an input of its event: clocks, random draws, engine answers, session and
contact look-ups, generated tokens, the row order of queries that do not fix it, and the interleaving of concurrent
calls. New row ids are counters, so they are fresh.

Assumptions. A service call, a webhook job (other than a chat sync) and each stretch of a campaign run between two
waits is one atomic step with no fault inside it; a chat sync is cut at every database call. One worker serves the
campaign queue. `setTimeout` never fires early. The `_retry` flag stays on a re-issued request. The unique indexes
(campaign and number, tenant and session and number, tenant and email) are those of `backend/prisma/schema.prisma`.

Where the code differs from its own comments the model follows the code:

- `campaign-processor.ts:42` names 1200 ms as the shortest default delay; the 1500 ms floor makes it 1500 (`DefaultDelayRange`).
- `rateLimitPerMin` limits the sends of a minute only from 35 on; below, jitter can exceed it (`RateIsCapFrom35`).
- The campaign loop's inline re-attachment fails on two orphans without a keeper, where `reattachOrphan` succeeds
  (`InlineAgreesIff`, `InlineFailsReachable`); a run that throws with no other job queued leaves its campaign RUNNING
  with nothing to drive it until somebody cancels it (`StrandsIff`, `StrandingReachable`, `StrandedUntilCancelled`).
- Two chats of one number in one batch can lose the number's conversation: exactly when it has no keeper and two of its
  orphans are equally old and older than the rest (`KeptUnderAllTiesIff`, `SyncLosesConversation`).
- A chat sync overwrites unread counters. When no batch holds a number twice it keeps them right exactly if, for every
  number, the last of its chats reports what is already stored (`SyncCountsIff`, `SyncBreaksCounters`).
- The cursor is a time, so rows of one millisecond on a page boundary are skipped; the walk returns the whole history
  exactly when no tie straddles a boundary (`WalkReturnsHistory`, `TieLosesMessage`).
- A removed member's email can be invited again, but accepting the invitation violates the unique index
  (`InvitedAgainFails`, `PendingAcceptIff`, `RemovedCannotRejoin`).
- "Assign another owner first" cannot be followed: no call ever makes a second owner (`OwnerNeverChanges`).

## Model

| member | source | states |
|---|---|---|
| `CampaignTheorems.AtMostOneSendPerTry` | backend/src/campaigns/campaign-processor.ts:140-147 | In every reachable state a recipient has had at most 1 + retryCount main sends, at most retryCount while PENDING or still in the run's snapshot, and at least one otherwise |
| `CampaignInvariant.StepKeeps` | backend/src/campaigns/campaign-processor.ts:106-490 | Every service call, worker step, acknowledgement and queue redelivery keeps the whole invariant: send counts, totals, message links, fresh ids, a sound worker snapshot |
| `CampaignInvariant.RunKeeps` | backend/src/campaigns/campaign-processor.ts:106-490 | The invariant holds after every finite run from a state that has it, in every interleaving |
| `CampaignTheorems.WaitingNeverStranded` | backend/src/campaigns/campaigns.service.ts:344-384 | In every reachable state, throwing runs included, SCHEDULED has a job queued and COMPLETED with a PENDING recipient has one queued |
| `CampaignTheorems.StrandsIff` | backend/src/campaigns/campaign-processor.ts:106-135 | From a state where no campaign is stranded, a step strands one if and only if it is a throw in the middle of a RUNNING campaign that has no other job queued |
| `CampaignTheorems.NoCampaignStranded` | backend/src/campaigns/campaigns.service.ts:215-258 | After every run in which no throw is of that kind, a RUNNING campaign also has a job queued or running |
| `CampaignTheorems.StrandingReachable` | backend/src/campaigns/campaign-processor.ts:127-135 | The failing run: create an immediate campaign, take it up, throw; it is RUNNING with its recipient PENDING and no job |
| `CampaignTheorems.CompletionLeavesNonePending` | backend/src/campaigns/campaign-processor.ts:477-489 | A run that reaches its end and completes the campaign leaves no recipient PENDING, and each recipient has had an attempt |
| `CampaignTheorems.CompletedTriedEveryone` | backend/src/campaigns/campaigns.service.ts:525-556 | In every reachable state a completed campaign with no job left has tried every recipient at least once and at most 1 + retryCount times, retries and throwing runs included |
| `CampaignTheorems.AbortStrands` | backend/src/campaigns/campaign-processor.ts:127-135 | A throw strands a campaign if and only if the run was on it, it is RUNNING and it has no other job queued |
| `CampaignTheorems.StrandedUntilCancelled` | backend/src/campaigns/campaigns.service.ts:344-384 | Such a campaign stays so through every run without its cancel or a queue redelivery: no launch, edit or retry helps, and no further main message is written |
| `CampaignTheorems.CancelledForever` | backend/src/campaigns/campaigns.service.ts:494-507 | A CANCELLED campaign stays CANCELLED in every run, and its main messages plus the send in flight never grow |
| `CampaignTheorems.AtMostOneSendAfterCancel` | backend/src/campaigns/campaign-processor.ts:228-236 | After a successful cancel at most one further main message of the campaign is written, and only if a recipient was past the status check |
| `CampaignTheorems.MessageIdsInjective` | backend/src/campaigns/campaign-processor.ts:343-351 | Over all runs and retries two recipients never share a messageId, and it names a main message to that very recipient |
| `CampaignTheorems.AckChangesAtMostOne` | backend/src/webhooks/webhooks.processor.ts:907-927 | If an acknowledgement changes a recipient, that recipient is the addressee of the main message carrying the external id, its status is the acknowledged one, and nothing else in the state changes |
| `CampaignTheorems.FollowUpAckChangesNothing` | backend/src/campaigns/campaign-processor.ts:370-413 | Acknowledging a follow-up link, or a message of no campaign, changes no recipient |
| `CampaignTheorems.RecipientsConserved` | backend/src/campaigns/campaigns.service.ts:215-247 | totalContacts equals the number of recipient rows and the sum of the counts of the six statuses, in every reachable state |
| `CampaignRows.RecipientMoves` | backend/src/campaigns/campaign-processor.ts:353-446 | Of all events three change a recipient row, to an exact value: its main send (SENT, or FAILED when the engine refuses, and the new message), a retry of its COMPLETED campaign if it is FAILED (PENDING, one retry more), and an acknowledgement of its message (codes 1, 2, 3, -1: SENT, DELIVERED, READ, FAILED) |
| `CampaignRows.RefusedStaysFailed` | backend/src/campaigns/campaign-processor.ts:427-446 | A recipient whose send was refused stays FAILED with that message in every run, until the message is acknowledged or its campaign retried |
| `CampaignRows.SentAgainAfterFailing` | backend/src/campaigns/campaigns.service.ts:525-556 | Between two main sends to one recipient, in any run, there is a moment at which it is FAILED and a retry of its campaign takes it up |
| `CampaignRows.RecipientsAdded` | backend/src/campaigns/campaigns.service.ts:437-482 | A recipient row is there after a step if and only if it was, or the step is a creation, import or contact list that names its number and is accepted; new rows are PENDING and untried |
| `CampaignRows.CampaignMoves` | backend/src/campaigns/campaigns.service.ts:318-376 | What each event leaves of a campaign row: its tenant never changes, its date only by an edit, its status only by an edit that clears the date, a launch (SCHEDULED with a date, else RUNNING), a cancel, a job taken up, and the end of a run |
| `CampaignRows.CampaignsAdded` | backend/src/campaigns/campaigns.service.ts:213-232 | A campaign is added exactly by a creation with a connected session and different numbers (SCHEDULED with a date, else RUNNING) and by a clone (DRAFT, nobody in it) |
| `CampaignRows.QueueMoves` | backend/src/campaigns/campaigns.service.ts:249-258 | The queue after any event: one job more, of the campaign and its tenant, for a creation, a launch and a retry that finds somebody FAILED; one less when the worker takes one; nothing else but a redelivery |
| `CampaignRows.JobTakenUp` | backend/src/campaigns/campaign-processor.ts:117-163 | The worker enters the send loop exactly when the campaign is the tenant's, is not CANCELLED and has an engine, with all PENDING recipients of the campaign in line |
| `CampaignRows.WorkerMoves` | backend/src/campaigns/campaign-processor.ts:228-413 | Where each event leaves the worker: the next recipient unless the campaign was cancelled, its link cards only after an accepted send, the next check after the last card or a refusal, idle at the end |
| `CampaignRows.CardsFollow` | backend/src/campaigns/campaign-processor.ts:366-413 | A recipient with link cards gets each of them, sent or failed, before the worker goes on |
| `CampaignRows.MainMessageWritten` | backend/src/campaigns/campaign-processor.ts:262-346 | A send writes one main message to the recipient being sent to, with the engine's id if the engine took it |
| `CampaignRows.LinkMessageWritten` | backend/src/campaigns/campaign-processor.ts:366-413 | A link card writes a message of its own, with the engine's id if it was sent |
| `CampaignRows.NothingElseWritten` | backend/src/campaigns/campaign-processor.ts:106-490 | No other call, worker step, acknowledgement or redelivery writes a message |
| `CampaignRows.CreateAnswer` | backend/src/campaigns/campaigns.service.ts:193-247 | Creation is refused exactly for a missing session (not found), one not connected or an unknown contact (bad request), and a number twice (the unique index) |
| `CampaignRows.EditAnswers` | backend/src/campaigns/campaigns.service.ts:288-366 | An edit and a launch succeed exactly for the tenant's own draft or scheduled campaign with a connected session (a launch only with recipients); another tenant's campaign is not found |
| `CampaignRows.RecipientAnswers` | backend/src/campaigns/campaigns.service.ts:414-441 | An import and a contact list succeed exactly for the tenant's own draft or scheduled campaign (a contact list only if its contacts are found and not empty) |
| `CampaignRows.RunAnswers` | backend/src/campaigns/campaigns.service.ts:494-551 | A cancel succeeds exactly for a RUNNING or SCHEDULED campaign of the tenant, a retry for a COMPLETED one with somebody FAILED, a clone for any of the tenant's |
| `CampaignService.CreateMany` | backend/src/campaigns/campaigns.service.ts:463-471 | The bulk insert with skipDuplicates inserts exactly the numbers not yet present, once each; without it the insert succeeds if and only if all numbers are new and distinct |
| `CampaignService.ScanRows` | backend/src/campaigns/campaigns.service.ts:443-455 | The CSV loop keeps the rows with a number, counts the others as skipped and reports exactly their row numbers, the header being row 1 |
| `CampaignService.CampaignStore.CreateCampaign` | backend/src/campaigns/campaigns.service.ts:188-258 | New state and reply of creation: session and recipient errors, rollback on a duplicate number, rows, total and job otherwise |
| `CampaignService.CampaignStore.UpdateCampaign` | backend/src/campaigns/campaigns.service.ts:283-340 | New state and reply of an edit: only DRAFT and SCHEDULED, session errors, clearing the date turns SCHEDULED into DRAFT, and no job is removed |
| `CampaignService.CampaignStore.LaunchCampaign` | backend/src/campaigns/campaigns.service.ts:344-384 | New state and reply of a launch: only DRAFT and SCHEDULED, not without recipients or a connected session, status by date, one more job |
| `CampaignService.CampaignStore.InsertNewRows` | backend/src/campaigns/campaigns.service.ts:627-647 | The shared insert raises totalContacts by exactly the number of rows it added |
| `CampaignService.CampaignStore.ImportCampaignRecipients` | backend/src/campaigns/campaigns.service.ts:409-490 | New state and reply of a CSV import; on success created + skipped is the number of rows, created is the number of new recipients, and the error rows are exactly those without a number |
| `CampaignService.CampaignStore.AddContactsToCampaign` | backend/src/campaigns/campaigns.service.ts:601-660 | New state and reply of adding contacts, with added and skipped adding up to the contacts resolved |
| `CampaignService.CampaignStore.CancelCampaign` | backend/src/campaigns/campaigns.service.ts:494-507 | New state and reply of a cancel: only RUNNING and SCHEDULED, and no job is removed |
| `CampaignService.CampaignStore.RetryFailedCampaign` | backend/src/campaigns/campaigns.service.ts:525-556 | New state and reply of a retry: only COMPLETED with FAILED recipients, which become PENDING with one more retry, and one more job |
| `CampaignService.CampaignStore.CloneCampaign` | backend/src/campaigns/campaigns.service.ts:575-592 | New state and reply of a clone: a DRAFT without recipients |
| `CampaignService.CampaignStore.HandleMessageAck` | backend/src/webhooks/webhooks.processor.ts:868-927 | The recipient side of an acknowledgement equals the specification for every code and every row the look-up may return |
| `CampaignService.CampaignStore.BeginRun` | backend/src/campaigns/campaign-processor.ts:112-224 | Taking a job: gone or CANCELLED ends it, otherwise RUNNING, the snapshot, and CANCELLED when no engine is found |
| `CampaignService.CampaignStore.NextRecipient` | backend/src/campaigns/campaign-processor.ts:228-236 | The loop head: stop when CANCELLED, complete when the snapshot is used up, otherwise take the next recipient |
| `CampaignService.CampaignStore.SendToRecipient` | backend/src/campaigns/campaign-processor.ts:307-446 | One main send on either engine outcome: message row, recipient status and messageId, follow-ups due |
| `CampaignService.CampaignStore.SendFollowUp` | backend/src/campaigns/campaign-processor.ts:370-413 | One follow-up card: a message row whose failure leaves the recipient alone |
| `CampaignService.CampaignStore.SendAll` | backend/src/campaigns/campaign-processor.ts:307-417 | A recipient past the check, with its follow-up links, while other events land between the calls, is a run of the state machine |
| `CampaignService.CampaignStore.HandleCampaign` | backend/src/campaigns/campaign-processor.ts:106-490 | The whole job, with any service calls, acknowledgements and queue deliveries landing wherever it waits, is a run of the state machine that ends with the worker idle and the campaign COMPLETED or CANCELLED if it was taken up |
| `Pacing.Iterate` | backend/src/campaigns/campaign-processor.ts:465-474 | One loop iteration advances the counter by one and the clock by work, the rest due, the jittered delay and lateness |
| `Pacing.SendLoop` | backend/src/campaigns/campaign-processor.ts:226-475 | The send loop starts its main sends at the times the gap arithmetic gives |
| `Pacing.RandIntRange` | backend/src/campaigns/campaign-processor.ts:53-55 | A draw lies in [min, max] |
| `Pacing.RandIntReaches` | backend/src/campaigns/campaign-processor.ts:53-55 | Every integer of [min, max] can be drawn |
| `Pacing.DelayRange` | backend/src/campaigns/campaign-processor.ts:61-65 | The delay is at least 1500 ms and within 40 percent of the base, floored |
| `Pacing.DefaultDelayRange` | backend/src/campaigns/campaign-processor.ts:42-65 | At the default rate the delay is 1500 to 2800 ms and both ends occur |
| `Pacing.SendsSpaced` | backend/src/campaigns/campaign-processor.ts:465-474 | For every rate and every draw, main sends k < m start at least (m - k) * 1500 + (m/20 - k/20) * 8000 ms apart |
| `Pacing.SendsNoSlower` | backend/src/campaigns/campaign-processor.ts:465-474 | Without latency they start at most the longest delay per message and 15000 ms per rest apart |
| `Pacing.RestPause` | backend/src/campaigns/campaign-processor.ts:73-75 | A rest follows every twentieth attempt and no other, lasts 8000 to 15000 ms, and reaches both ends |
| `Pacing.DelayAtMost` | backend/src/campaigns/campaign-processor.ts:61-65 | The delay is 1500 ms or at most 1.4 times the even spacing of the rate |
| `Pacing.LatencyAdds` | backend/src/campaigns/campaign-processor.ts:465-474 | Engine latency, link cards and late timers are added in full: a run starts its sends later by exactly what it has lost |
| `Pacing.DefaultBatch` | backend/src/campaigns/campaign-processor.ts:44-53 | At the default rate, without latency, twenty messages and their rest take 38 to 71 seconds |
| `Pacing.AtMost35PerMinute` | backend/src/campaigns/campaign-processor.ts:465-474 | No 60-second window of a run, ends included, holds more than 35 main sends |
| `Pacing.ThirtyFiveReached` | backend/src/campaigns/campaign-processor.ts:150 | The bound is tight: the fastest run at 60 a minute starts 35 sends in one such window |
| `Pacing.RateIsCapFrom35` | backend/src/campaigns/campaign-processor.ts:150 | rateLimitPerMin is an upper bound on the main sends of every minute if and only if it is at least 35 |
| `Conversations.NormaliseIdempotent` | backend/src/webhooks/webhooks.processor.ts:205-211 | Normalising a JID twice is normalising it once |
| `Conversations.NumberAndAddressMeet` | backend/src/webhooks/webhooks.processor.ts:205-211 | A bare number and the contact address made from it normalise to the same number; linked-device, group, broadcast and newsletter addresses stay as they are |
| `Conversations.NormaliseInjective` | backend/src/webhooks/webhooks.processor.ts:205-211 | Two addresses with exactly one @ normalise to the same number only if they are equal |
| `Conversations.ReattachTheorem` | backend/src/webhooks/webhooks.processor.ts:143-179 | Re-attachment leaves no orphan of the number, never makes two rows of one key, touches no other row, re-keys only the oldest orphan, and leaves the key with a row exactly when it had one or there was an orphan |
| `Conversations.InlineFailsIff` | backend/src/campaigns/campaign-processor.ts:253-275 | The campaign loop's inline version is rejected by the unique index if and only if there is no keeper and there are two or more orphans |
| `Conversations.InlineAgreesIff` | backend/src/campaigns/campaign-processor.ts:253-275 | The inline version gives the webhook version's table if and only if there is a keeper or at most one orphan |
| `CampaignInbox.InlineFailsReachable` | backend/src/campaigns/campaign-processor.ts:253-275 | The failing run: a number written to from two sessions, both deleted; a campaign of a third session is rejected there, where the webhook re-attaches |
| `CampaignInbox.SyncLosesConversation` | backend/src/webhooks/webhooks.processor.ts:292-311 | The failing run of a sync: after the same run the third session syncs two chats of that number (bare or as a contact address) in one batch; under an alternating schedule both tasks finish, both conversations are deleted, nothing is written and every message has lost its conversation |
| `CampaignInbox.SnapshotRunsIff` | backend/src/campaigns/campaign-processor.ts:228-301 | A run over a snapshot of different numbers, with nothing in between, gets through its conversation writes if and only if at its start every number has a keeper or at most one orphan |
| `Conversations.UpsertTheorem` | backend/src/webhooks/webhooks.processor.ts:489-516 | After the upsert the key has exactly one row, the one it had with the update applied or the new one, and no other row changes |
| `ChatSync.StepKeepsRest` | backend/src/webhooks/webhooks.processor.ts:143-179 | Cutting a chat's task into single database calls does not change what it does: after each call the rest of the task leads to the same table |
| `ChatSync.OrderIndependent` | backend/src/webhooks/webhooks.processor.ts:248-346 | For a batch with pairwise different normalised JIDs every complete interleaving of the tasks' database calls gives the table of handling the chats one by one |
| `ChatSync.BatchFinishes` | backend/src/webhooks/webhooks.processor.ts:248-346 | Every schedule that gives each task five turns finishes the batch |
| `ChatSync.RunTaskTheorem` | backend/src/webhooks/webhooks.processor.ts:294-345 | A chat's key has a row afterwards exactly when it had one, had an orphan, or the chat has text, unread messages or a name; an existing row stays the row, and no orphan of the number remains |
| `ChatSync.SyncedRow` | backend/src/webhooks/webhooks.processor.ts:264-345 | The row a chat leaves shows its unread count, the first 500 characters of its text, its own time or the clock's, and its trimmed name if it has one; everything else is that of the row or oldest orphan it found, or of a new open row |
| `ChatSync.TrimmedMeans` | backend/src/webhooks/webhooks.processor.ts:279-282 | A name is none exactly if it is only white space; otherwise it is the text without the white space at either end |
| `ChatSync.NewRowsHaveContent` | backend/src/webhooks/webhooks.processor.ts:294-316 | Under every schedule, finished or not, a row a batch adds belongs to a chat with text, unread messages or a name |
| `ChatSync.BatchesCover` | backend/src/webhooks/webhooks.processor.ts:248-249 | The slices of twenty joined are the chat list, none is empty and all but the last are full |
| `ChatSync.SyncRefinesSequential` | backend/src/webhooks/webhooks.processor.ts:244-361 | The whole sync, batch after batch under any schedules, equals the one-by-one sync when no single batch holds two chats of one number |
| `ChatSyncKeys.ScheduleKeepsKeys` | backend/src/webhooks/webhooks.processor.ts:248-346 | No interleaving of a batch, even with two chats of one number, makes two rows of one (tenant, session, number) |
| `ChatSyncKeys.SyncKeepsKeys` | backend/src/webhooks/webhooks.processor.ts:213-361 | The same over all batches; rows keep their tenant and number and move at most onto the syncing session |
| `ChatSyncKeys.SyncKeepsRowInPlace` | backend/src/webhooks/webhooks.processor.ts:213-361 | A row that has a session keeps it, its tenant and its number under every schedule of every batch |
| `ChatSyncRaces.OldestOrphanSurvives` | backend/src/webhooks/webhooks.processor.ts:143-179 | If the number has no keeper and all its tasks are given the same orphan first, no interleaving loses that orphan, however many chats of the batch share the number: it is there at every moment, and has the key once a task of the number is done |
| `ChatSyncRaces.TieLosesConversation` | backend/src/webhooks/webhooks.processor.ts:158-178 | In any batch, if two tasks of a number without a keeper are given different orphans first, a schedule of eight of their calls finishes both and deletes every orphan of the number, with nothing written |
| `ChatSyncRaces.KeepsConversationIff` | backend/src/webhooks/webhooks.processor.ts:143-179 | For any batch and any number in it that has a row or orphans: under every schedule that finishes the batch a row that was there before ends with the key, if and only if the number has a keeper or all its tasks are given the same orphan first |
| `ChatSyncRaces.KeptUnderAllTiesIff` | backend/src/webhooks/webhooks.processor.ts:143-179 | The same over every order the database may return equally old orphans in: the conversation is always kept if and only if the number has a keeper, or only one chat of the batch has the number, or no two of its orphans are equally old and oldest |
| `Inbox.IdentityInEveryRun` | backend/src/webhooks/webhooks.processor.ts:487-516 | In every run, under every interleaving of every sync, there is at most one conversation per (tenant, session, number) |
| `Inbox.MessagesHaveHomes` | backend/src/webhooks/webhooks.processor.ts:518-533 | In every run a message's conversation exists and has the message's tenant |
| `Inbox.SyncIsSequential` | backend/src/webhooks/webhooks.processor.ts:213-361 | A sync in which no batch repeats a number does to the inbox what handling its chats in order does |
| `Inbox.SyncedRowsAreReal` | backend/src/webhooks/webhooks.processor.ts:254-316 | Under every schedule a sync adds rows only for chats with text, unread messages or a name, and none for newsletters and broadcasts |
| `InboxSync.EveryChatIsSynced` | backend/src/webhooks/webhooks.processor.ts:254-345 | After a finished sync with no number twice in a batch, every chat that is not empty-addressed, a newsletter or a broadcast (groups included) has a conversation under (tenant, session, normalised address) if and only if it had one, had an orphan, or one of its chats has text, unread messages or a name; and no orphan is left |
| `InboxSync.LastChatShown` | backend/src/webhooks/webhooks.processor.ts:264-345 | That conversation shows the last chat of its number; if it is the only one, the rest is kept from the row that was there |
| `InboxSync.OthersStay` | backend/src/webhooks/webhooks.processor.ts:249-262 | Conversations of other tenants and of numbers without a chat in the list stay as they are |
| `Inbox.LandedRow` | backend/src/webhooks/webhooks.processor.ts:449-516 | The conversation a stored message lands in has the normalised address, tenant and session it is of, the first 500 characters of its text, and its own time stamp where it has one, else the clock |
| `Inbox.LandedState` | backend/src/webhooks/webhooks.processor.ts:489-516 | It keeps the unread count, creation time, openness and contact of the row or orphan found: a received message adds one unread and reopens, a contact found is linked, and a new row starts open with these |
| `Inbox.LandedName` | backend/src/webhooks/webhooks.processor.ts:471-487 | A received message names it by the saved contact, else by the name the sender shows, else leaves the name; a message from the phone leaves it; a campaign names only a new conversation |
| `InboxRows.StoredIff` | backend/src/webhooks/webhooks.processor.ts:386-418 | A delivery is stored if and only if its session is there, its id is not stored yet and (received) no newsletter sent it; a campaign's if the number has a keeper or at most one orphan; otherwise nothing changes |
| `InboxRows.StoredMessage` | backend/src/webhooks/webhooks.processor.ts:518-533 | The stored message has its session's tenant and the conversation of its number: inbound and DELIVERED, outbound and SENT, or a campaign's SENT with the engine's id or FAILED |
| `InboxRows.MessageMoves` | backend/src/conversations/conversations.service.ts:496-514 | No event deletes a stored message; its status changes exactly when its conversation is marked as read and it is inbound, or its engine id is acknowledged, and its conversation is cleared exactly when that row is deleted |
| `InboxRows.OtherRowsStay` | backend/src/webhooks/webhooks.processor.ts:143-179 | A stored message changes its number's row only; other orphans of the number are deleted and every other row stays as it is |
| `InboxRows.QuietRows` | backend/src/conversations/conversations.service.ts:486-514 | Deleting a session makes exactly its conversations orphans, marking as read clears one counter of the caller's tenant, and acknowledgements and new sessions change no conversation |
| `InboxRows.SessionMoves` | backend/src/sessions/sessions.service.ts:269-294 | A session is added under the engine's id with an id of its own and the caller's tenant, stays as it is, and goes when it is deleted |
| `Inbox.RowOfStays` | backend/src/webhooks/webhooks.processor.ts:143-179 | Once a key has a row it keeps that row for as long as its session lives, in every run and under every interleaving of every sync |
| `Inbox.KeyedRowIsUsed` | backend/src/webhooks/webhooks.processor.ts:487-533 | Whoever created the row of a key, every message ever stored under the key is stored in that row |
| `Inbox.SameNumberSameConversation` | backend/src/webhooks/webhooks.processor.ts:629-672 | Two messages with the same session and normalised number, stored at any two moments of any run by the received, outgoing or campaign writers, are in the same conversation |
| `Inbox.SyncedChatHasTarget` | backend/src/webhooks/webhooks.processor.ts:254-262 | A sync writes a chat under the key that messages of the same JID are stored under |
| `Inbox.LandsOnTarget` | backend/src/webhooks/webhooks.processor.ts:518-533 | A stored message belongs to the one row of its session and number |
| `InboxUnread.UnreadCountsInEveryRun` | backend/src/webhooks/webhooks.processor.ts:489-533 | In every run in which each sync finishes, holds no number twice in one batch and agrees with what is counted, and no acknowledgement changes a stored inbound message between read and unread, each unreadCount is the number of stored inbound messages not READ |
| `InboxUnread.SyncCountsIff` | backend/src/webhooks/webhooks.processor.ts:301-345 | A finished sync in which no batch holds a number twice keeps the counters exact, under every schedule, if and only if for each number the last of its chats, in whatever batch, reports the number already counted for the row its first chat finds |
| `InboxUnread.SyncBreaksCounters` | backend/src/webhooks/webhooks.processor.ts:301-345 | The failing sync: in a new inbox a chat reports unread messages that were never stored |
| `InboxUnread.ReadAllCounts` | backend/src/conversations/conversations.service.ts:496-514 | Marking a conversation as read keeps every counter exact |
| `InboxUnread.AckCountsIff` | backend/src/webhooks/webhooks.processor.ts:880-886 | An acknowledgement keeps the counters exact if and only if it changes no attached inbound message between read and unread |
| `InboxUnread.AckBreaksCounters` | backend/src/webhooks/webhooks.processor.ts:880-886 | The failing acknowledgement: a received message is acknowledged as read |
| `Inbox.RedeliveryIsSafe` | backend/src/webhooks/webhooks.processor.ts:387-401 | With a fixed session table, any stream with redelivered received and outgoing events that carry an external id, among any other events, leaves the state it leaves with every later copy removed |
| `Inbox.RepeatsSettled` | backend/src/webhooks/webhooks.processor.ts:562-576 | Once a delivery with an external id has run, every copy of it is settled for good: stored, of an unknown session, or a newsletter |
| `InboxService.InboxStore.ReattachOrphan` | backend/src/webhooks/webhooks.processor.ts:143-179 | The query, deletes and update, in order, give the specified table, and messages of deleted conversations lose them |
| `InboxService.InboxStore.UpsertConversation` | backend/src/webhooks/webhooks.processor.ts:487-516 | The upsert gives the specified table and returns the id of the key's one row |
| `InboxService.InboxStore.HandleMessageReceived` | backend/src/webhooks/webhooks.processor.ts:383-533 | New state of a received message in the code's order: duplicate, unknown session, newsletter, re-attachment, upsert, insert; stored tells whether it was kept |
| `InboxService.InboxStore.HandleMessageOutgoing` | backend/src/webhooks/webhooks.processor.ts:559-672 | New state of an outgoing message; newsletters are not dropped here and no unread count is raised |
| `InboxService.InboxStore.ReattachInline` | backend/src/campaigns/campaign-processor.ts:253-275 | The inline update or delete and its rejection by the unique index |
| `InboxService.InboxStore.SendToRecipient` | backend/src/campaigns/campaign-processor.ts:253-320 | What the campaign loop writes to the inbox for one recipient, and when it cannot |
| `InboxService.InboxStore.MarkConversationRead` | backend/src/conversations/conversations.service.ts:486-514 | NotFound for a missing or foreign conversation, otherwise its inbound messages READ and its counter zero |
| `InboxService.InboxStore.HandleMessageAck` | backend/src/webhooks/webhooks.processor.ts:868-886 | The message side of an acknowledgement: all rows with the external id, for the four known codes |
| `InboxService.InboxStore.AddSession` | backend/src/sessions/sessions.service.ts:36-47 | A new session row under a new id |
| `InboxService.InboxStore.DeleteSession` | backend/src/sessions/sessions.service.ts:288-292 | Deleting a session leaves its conversations as orphans |
| `InboxService.InboxStore.PerformCall` | backend/src/webhooks/webhooks.processor.ts:143-179 | Each database call of a chat's task, written as a statement, is the specified step |
| `InboxService.InboxStore.RunBatch` | backend/src/webhooks/webhooks.processor.ts:248-346 | A batch whose tasks take turns as a schedule says gives the specified table |
| `InboxService.InboxStore.RunSlices` | backend/src/webhooks/webhooks.processor.ts:244-356 | The slicing loop runs exactly the specified batches in order |
| `InboxService.InboxStore.HandleSessionChatsSynced` | backend/src/webhooks/webhooks.processor.ts:213-361 | New state of a whole chat sync under any schedules |
| `CursorPaging.FindMany` | backend/src/conversations/conversations.service.ts:436-467 | The query returns the newest limit rows older than the cursor, newest first |
| `CursorPaging.GetMessages` | backend/src/conversations/conversations.service.ts:420-481 | NotFound, or the page oldest first with the oldest row's time as cursor exactly when the page is full |
| `CursorPaging.NextCursorEarlier` | backend/src/conversations/conversations.service.ts:471-474 | A cursor moves at least one page back, and exactly one page if and only if the row before the page is strictly older than its first |
| `CursorPaging.WalkReturnsHistory` | backend/src/conversations/conversations.service.ts:436-481 | Whatever order each call gets ties in, following nextCursor to null returns every row of an unchanged history once if and only if no two rows of equal time straddle a page boundary; it then takes n / limit + 1 calls, and what it returns is always in order |
| `CursorPaging.DistinctTimesWalk` | backend/src/conversations/conversations.service.ts:436-481 | With distinct times the walk returns exactly the history, ascending, in n / limit + 1 calls, for every limit of at least 1 |
| `CursorPaging.TieLosesMessage` | backend/src/conversations/conversations.service.ts:436-439 | Two messages of one millisecond with limit 1: the walk misses one, whatever order the calls get them in |
| `CursorPaging.NeverRepeats` | backend/src/conversations/conversations.service.ts:436-481 | Whatever order ties come back in at each call, and while messages arrive, a later page is strictly older than an earlier one |
| `Reactions.MergeReaction` | backend/src/webhooks/webhooks.processor.ts:727-738 | The loop over the stored entries and the final push compute the merge |
| `Reactions.MapFollowsHistory` | backend/src/webhooks/webhooks.processor.ts:727-743 | After every history each emoji lists exactly the senders showing it, in order, and no list is empty |
| `Reactions.ShowingMeansLatest` | backend/src/webhooks/webhooks.processor.ts:736-738 | A sender shows an emoji if and only if it is the sender's latest reaction and not blank |
| `Reactions.OneReactionPerSender` | backend/src/webhooks/webhooks.processor.ts:727-743 | A sender is listed under an emoji if and only if that is the sender's last non-blank reaction; no stored list is empty |
| `Reactions.ListsInOrder` | backend/src/messages/messages.service.ts:466-477 | Each list is in the order of the senders' last reactions and repeats nobody |
| `Reactions.StoreFollows` | backend/src/messages/messages.service.ts:466-482 | Either writer keeps every stored map equal to the merge of its own message's history |
| `Reactions.ShownIsLastGiven` | backend/src/messages/messages.service.ts:420-482 | Over any run of both writers a message shows a sender under an emoji if and only if that is the last reaction of the sender that got past every check (webhook: target and sender known; own: session connected, number and engine id known, engine accepted) |
| `Reactions.ReactionStore.HandleMessageReaction` | backend/src/webhooks/webhooks.processor.ts:698-743 | The webhook records a reaction past its checks and nothing otherwise, so the store keeps following its history |
| `Reactions.ReactionStore.ReactToMessage` | backend/src/messages/messages.service.ts:394-489 | The service call records the session's own reaction exactly when every check and the engine pass, so the store keeps following its history |
| `TokenRefresh.AtMostOneRefreshInFlight` | frontend/services/api.ts:55-97 | At most one refresh is in flight, exactly while isRefreshing holds, and a request waits only then |
| `TokenRefresh.RefreshesAndIssuesBounded` | frontend/services/api.ts:77-97 | n requests cause at most n refreshes, each led by a different request, and each request is issued at most n + 1 times |
| `TokenRefresh.WaiterSettledOnce` | frontend/services/api.ts:61-67 | Every waiter is queued once and settled at most once, with the outcome of the refresh it waited on, which is in flight until then |
| `TokenRefresh.WaiterFollowsItsRefresh` | frontend/services/api.ts:82-94 | When the refresh returns, every waiter is released with its outcome and re-issued or failed accordingly, and the queue and flag are reset |
| `TokenRefresh.RequestMoves` | frontend/services/api.ts:69-128 | What each callback leaves of each request; the one that led a refresh is issued again when it renews the token and fails when it does not |
| `TokenRefresh.EndsWellIff` | frontend/services/api.ts:69-128 | In every run a request ends well if and only if the last response it got is a success |
| `TokenRefresh.MarkedIffLed` | frontend/services/api.ts:96-97 | A request carries _retry exactly if it has led a refresh |
| `TokenRefresh.ExpiryIsInvisible` | frontend/services/api.ts:55-128 | If every refresh renews the token, the server has no other error and accepts the new token of those that led a refresh, every run that cannot go on has ended every request well, in every order of callbacks |
| `TokenRefresh.NobodyStuck` | frontend/services/api.ts:69-128 | While a request is unfinished some callback can still run |
| `TokenRefresh.EverythingSettles` | frontend/services/api.ts:55-128 | When no callback can run any more, every request is done and every promise ever queued has been settled, each exactly once and with the outcome of its own refresh |
| `TokenRefresh.RunsEnd` | frontend/services/api.ts:69-128 | Every run can be continued to such an end |
| `TokenRefresh.StepDecreases` | frontend/services/api.ts:69-128 | Every callback decreases an explicit measure, although queued requests are never marked |
| `TokenRefresh.RefreshTerminates` | frontend/services/api.ts:69-128 | Every run with n requests has at most 2n(3n + 1) + 3n callbacks, whatever the server answers |
| `TokenRefresh.ApiClient.ProcessQueue` | frontend/services/api.ts:61-67 | Every queued promise is settled with the outcome, in order, and the queue is emptied |
| `TokenRefresh.ApiClient.OnResponse` | frontend/services/api.ts:71-97 | New state when a response arrives: done, failed, queued, or leading a refresh |
| `TokenRefresh.ApiClient.OnRefreshed` | frontend/services/api.ts:99-126 | New state when the refresh returns: queue settled, leader re-issued or failed, flag reset |
| `TokenRefresh.ApiClient.OnSettled` | frontend/services/api.ts:86-93 | New state when a settled waiter goes on |
| `Team.HierarchyInEveryRun` | backend/src/team/team.service.ts:375-692 | After any sequence of calls a managerId sits only on an AGENT and names a live, active MANAGER of the same tenant, and no two users of a tenant share an email |
| `Team.RoleChangeCascade` | backend/src/team/team.service.ts:401-430 | A role change clears exactly the links of the agents led by a user who is not to be a manager, and changes no other row |
| `Team.RemovalCascade` | backend/src/team/team.service.ts:659-692 | A removal leaves nobody led by the removed user, clears exactly those links and changes no other row |
| `Team.OwnerKept` | backend/src/team/team.service.ts:390-400 | From any state, a tenant with a non-deleted owner has one after any calls |
| `Team.OwnerNeverChanges` | backend/src/team/team.service.ts:649-653 | From the empty state, each tenant has exactly one owner, and it is the same user in every later state |
| `Team.PendingAcceptIff` | backend/src/team/team.service.ts:197-236 | Accepting a pending, unexpired invitation succeeds if and only if no row of the tenant, removed or not, has its email; otherwise the unique index answers |
| `Team.RemovedCannotRejoin` | backend/src/team/team.service.ts:224-236 | In every later state, accepting an invitation to an email any row of the tenant has used fails: on the unique index unless it was accepted or has expired |
| `Team.InvitedAgainFails` | backend/src/team/team.service.ts:82-125 | The failing run: a member joins, is removed and is invited again; the invitation is issued, and accepting it fails on the unique index |
| `TeamRows.JoinsAsInvited` | backend/src/team/team.service.ts:197-236 | Whoever accepts an invitation, in any run, was invited to that tenant under that email in the role he gets, with a token issued at most 72 hours before, through any resends and revocations |
| `TeamRows.NobodyUninvited` | backend/src/team/team.service.ts:82-236 | Every user of every run signed up, was registered in the tenant, or was invited to it under his email |
| `TeamRows.UserMoves` | backend/src/team/team.service.ts:375-692 | What each call leaves of each user: role, manager link and removal exactly as called, and the link of a user led by somebody who stops being a manager |
| `TeamRows.UsersAdded` | backend/src/team/team.service.ts:224-241 | A user is added exactly by a signup (owner of a new tenant), a registration (administrator) and an accepted invitation (its role), active and without a manager |
| `TeamRows.InvitationMoves` | backend/src/team/team.service.ts:108-125 | What each call leaves of the invitations: a new one to the same address, a resend or a revocation withdraws one; a token expires 72 hours after its issue |
| `TeamRows.InviteAnswer` | backend/src/team/team.service.ts:88-106 | An invitation is refused exactly to a member and to somebody with an open invitation, and otherwise only by the unique token or a missing tenant |
| `TeamRows.AcceptAnswer` | backend/src/team/team.service.ts:197-222 | Accepting succeeds exactly for a token that is there, not accepted, not expired, whose email nobody of the tenant has ever had |
| `TeamRows.RoleAnswer` | backend/src/team/team.service.ts:375-400 | A role change succeeds exactly for another member of the team who is not its only owner |
| `TeamRows.ManagerAnswer` | backend/src/team/team.service.ts:575-620 | A manager can be set exactly for an agent of the team, and only to an active manager of the same team |
| `TeamRows.RemoveAnswer` | backend/src/team/team.service.ts:639-657 | A removal succeeds exactly for another member of the team who does not own it |
| `TeamRows.RegisterAnswer` | backend/src/auth/auth.service.ts:31-44 | A registration succeeds exactly for a tenant that is there and an email nobody of it has |
| `TeamRows.ResendRevokeAnswer` | backend/src/team/team.service.ts:308-365 | A resend needs an invitation of the tenant that is not accepted, a revocation any of the tenant's |
| `Team.TeamService.SignUp` | backend/src/auth/auth.service.ts:46-77 | Signup adds a tenant with its owner |
| `Team.TeamService.RegisterAdmin` | backend/src/auth/auth.service.ts:31-44 | Reply and new state of a registration: unknown tenant, email taken, or a new administrator |
| `Team.TeamService.InviteMember` | backend/src/team/team.service.ts:82-125 | Reply and new state of an invitation, replacing an accepted or expired one |
| `Team.TeamService.ResendInvite` | backend/src/team/team.service.ts:308-326 | Reply and new state of a resend: new token and expiry, only while not accepted |
| `Team.TeamService.RevokeInvite` | backend/src/team/team.service.ts:343-349 | Reply and new state of a revocation |
| `Team.TeamService.AcceptInvite` | backend/src/team/team.service.ts:197-263 | Reply and new state of accepting: not found, accepted, expired, email taken, or a new active user |
| `Team.TeamService.UpdateMemberRole` | backend/src/team/team.service.ts:375-443 | Reply and new state of a role change with its self and last-owner checks and its cascade |
| `Team.TeamService.UnassignAgents` | backend/src/team/team.service.ts:409-420 | Finding a manager's agents and clearing their links |
| `Team.TeamService.SetMemberManager` | backend/src/team/team.service.ts:575-613 | Reply and new state of linking an agent to a manager, with both ends checked |
| `Team.TeamService.RemoveMember` | backend/src/team/team.service.ts:639-696 | Reply and new state of a removal with its self and owner checks and its cascade |
| `EngineRegistry.LeastIsFirstMinimum` | backend/src/engine-registry/engine-registry.service.ts:76-80 | The reduction keeps the first element of minimal load |
| `EngineRegistry.PickMinimisesLoad` | backend/src/engine-registry/engine-registry.service.ts:61-81 | The pick is healthy and not full and no such engine has a smaller active / max, compared crosswise; it fails exactly when there is no engine, or none such |
| `EngineRegistry.CountersStayWithin` | backend/src/engine-registry/engine-registry.service.ts:147-170 | 0 <= activeSessions <= maxSessions in every run, with creations in flight, failures, expiries and re-registrations; every stored record is healthy |
| `EngineRegistry.BoundedIff` | backend/src/engine-registry/engine-registry.service.ts:111-130 | A step keeps every counter at most the sessions mapped to its engine if and only if it is not the expiry of a mapping the counter relies on |
| `EngineRegistry.CountersNeverExceedMappings` | backend/src/engine-registry/engine-registry.service.ts:111-130 | Without mapping expiry no counter ever exceeds the number of sessions mapped to its engine |
| `EngineRegistry.ExactIff` | backend/src/engine-registry/engine-registry.service.ts:26-44 | A step keeps every counter exactly the number of mapped sessions if and only if it does not register an engine with sessions, expire a live mapping, settle on an engine filled meanwhile, or lose a count |
| `EngineRegistry.ExpiryBreaksBound` | backend/src/engine-registry/engine-registry.service.ts:111-121 | The failing run for both conditions: one session is created, then its mapping expires |
| `EngineRegistry.ReregistrationBreaksExactness` | backend/src/engine-registry/engine-registry.service.ts:26-44 | The failing run: an engine with a session registers again |
| `EngineRegistry.SecondCreationBreaksExactness` | backend/src/engine-registry/engine-registry.service.ts:147-159 | The failing runs: two creations pick the engine at once; the second breaks exactness when there is room for one only, or when its count is lost |
| `EngineRegistry.CreateDeleteRunsExact` | backend/src/sessions/sessions.service.ts:31-93 | In runs of complete create and delete calls from first registrations every counter is exact and rows and mappings correspond |
| `EngineRows.SessionRowMoves` | backend/src/sessions/sessions.service.ts:31-93 | A session row is written by a creation that finds a usable engine of least load, for the caller's tenant, never changes, and goes exactly when that tenant deletes it or its creation fails |
| `EngineRows.SessionStays` | backend/src/sessions/sessions.service.ts:269-294 | A session whose creation is over stays, with tenant and engine, in every run until its own tenant deletes it |
| `EngineRows.EngineMoves` | backend/src/engine-registry/engine-registry.service.ts:111-171 | What each event leaves of an engine's record: a creation that goes through counts one up to the maximum, the deletion of a session mapped to it one less down to none, a registration starts again, nothing else counts |
| `EngineRows.MappingMoves` | backend/src/engine-registry/engine-registry.service.ts:111-130 | A mapping is written exactly when the creation of a session still there is answered well, to the engine picked, and goes by expiry or deletion |
| `EngineRows.CreationMoves` | backend/src/sessions/sessions.service.ts:31-93 | A creation is in flight from the pick of its engine to the engine's answer |
| `EngineRegistry.SessionsService.RegisterEngine` | backend/src/engine-registry/engine-registry.service.ts:26-44 | A registration writes a record with no active session |
| `EngineRegistry.SessionsService.HeartbeatEngine` | backend/src/engine-registry/engine-registry.service.ts:46-59 | A heartbeat refreshes a present record and reports a missing one |
| `EngineRegistry.SessionsService.DeregisterEngine` | backend/src/engine-registry/engine-registry.service.ts:142-145 | A deregistration removes the record and leaves the mappings |
| `EngineRegistry.SessionsService.FilterUsable` | backend/src/engine-registry/engine-registry.service.ts:68-70 | The filter loop keeps the healthy engines that are not full, in order |
| `EngineRegistry.SessionsService.ReduceToLeast` | backend/src/engine-registry/engine-registry.service.ts:76-80 | The reduce loop keeps the first of least load |
| `EngineRegistry.SessionsService.GetLeastLoadedInstance` | backend/src/engine-registry/engine-registry.service.ts:61-81 | The specified choice, with its two failures |
| `EngineRegistry.SessionsService.IncrementSessionCount` | backend/src/engine-registry/engine-registry.service.ts:147-159 | Counting up stops at maxSessions and ignores a missing record |
| `EngineRegistry.SessionsService.DecrementSessionCount` | backend/src/engine-registry/engine-registry.service.ts:161-170 | Counting down stops at zero and ignores a missing record |
| `EngineRegistry.SessionsService.ReleaseSessionFromInstance` | backend/src/engine-registry/engine-registry.service.ts:123-130 | A release counts down the mapped engine and drops the mapping |
| `EngineRegistry.SessionsService.BeginCreate` | backend/src/sessions/sessions.service.ts:31-47 | The first half of a creation: the pick and the session row |
| `EngineRegistry.SessionsService.FinishCreate` | backend/src/sessions/sessions.service.ts:52-93 | The second half: rollback when the engine or the registry fails, and nothing recorded for a session deleted meanwhile |
| `EngineRegistry.SessionsService.CreateSession` | backend/src/sessions/sessions.service.ts:31-93 | A creation that runs to completion is its two halves |
| `EngineRegistry.SessionsService.DeleteSession` | backend/src/sessions/sessions.service.ts:269-292 | A deletion releases the engine and removes the row, and reports a missing or foreign session |

## Left out

- Faults between the writes of one step (a progress computation that throws after a send, a lost connection), and races between two service calls that check before they act: every such call is one step.
- More than one campaign worker: the processor sets no concurrency, and a second worker could take one PENDING recipient twice.
- CampaignService.CampaignStore.SendToRecipient: the message row, the engine call and the row updates are one step, so an acknowledgement that overtakes the engine's own answer is not modelled.
- CampaignService.CampaignStore.SendAll: a recipient may have any number of follow-up links, where the code has at most two; how the links are found in the caption is left out.
- CampaignService.CampaignStore.HandleMessageAck: the retries while no message carries the external id are separate acknowledgement events; progress figures and gateway emits are left out.
- CampaignTheorems.StrandsIff: a throw is an event of its own in the campaign protocol; its cause in the inbox is stated apart, by CampaignInbox.SnapshotRunsIff, for a run nothing else interferes with.
- Delivery status is not claimed to be monotone: acknowledgements overwrite unconditionally, as in the code.
- Campaign rows keep status, date, tenant and total; names, templates, media and time stamps are left out. The contact and session look-ups are inputs.
- Pacing.SendsSpaced: counts from the start of the first main send, for one run; the pause between two runs of a campaign is not modelled.
- InboxService.InboxStore.HandleMessageReceived: contacts are inputs of the event, so the update of a contact's displayed name is left out, as are media saving, message types and gateway emits; of the message row, tenant, conversation, direction, status and external id are kept.
- InboxService.InboxStore.SendToRecipient: the follow-up cards, which add outbound messages to the same conversation, are part of the campaign protocol only.
- InboxService.InboxStore.HandleSessionChatsSynced: a batch's database calls interleave, but no other event lands inside a sync; the upsert is one call, as the unique index makes it.
- InboxUnread.UnreadCountsInEveryRun: runs with a sync that holds a number twice in one batch are not covered; there the schedule decides which of the writes comes last. Repeats in different batches are covered.
- Conversations.ReattachTheorem: rows of one creation time may come back in any order, but the order is an input of the call.
- The decrypt-failure handler, which only looks a conversation up, and `sendMessage`, which writes under its own `@lid` key, do not share the handlers' key and are left out, as are pinning, archiving, assigning and resolving.
- CursorPaging.WalkReturnsHistory: the cursor is the stored time itself; its ISO text and the parsing of a malformed one are left out.
- Reactions.MergeReaction: an emoji is any string; the special property names of a JavaScript object (`__proto__` and the integer-like keys that would be reordered) are left out, and the key order of the stored object is not modelled.
- TokenRefresh.RefreshTerminates: counts callbacks, not time; token contents, headers and the redirect to the login page are left out.
- Team.TeamService.SignUp: slugs, passwords, refresh tokens, invitation e-mails, audit rows, seed data and a tenant's own active flag are left out; 72 hours are 72 times 3600 seconds, without daylight-saving shifts.
- EngineRegistry.PickMinimisesLoad: loads are exact quotients; with at most 200 sessions an engine, two different quotients never round to the same double.
- EngineRegistry.SessionsService.CreateSession: the engine's own session list, which keeps a session whose registration failed, is not modelled; record lifetimes are expiry events.
- Controllers, guards, request validation, Swagger and CORS set-up, the queue, database, Redis and HTTP clients, CSV parsing, raw SQL analytics, display-name priority, API keys, templates, support and the React components: plumbing, or members whose contract would say no more than their body.
