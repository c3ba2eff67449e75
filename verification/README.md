# Verified model of the messaging backend

This project models the parts of the backend where many actors change the same data at once, or
where a calculation has to be exact, and proves what the code promises about them. It needs nothing
but Dafny 4.11: `dafny verify dfyconfig.toml`.

**The outbound queue.** `QueueMachine` is one table of messages and everything that moves it: workers that
acquire a row, call a provider outside any transaction and settle the outcome under a `lockedBy` guard; recovery
of expired locks; the delivery webhook; enqueues; consent, customer and policy changes. Each conditional update,
transaction, query and provider call is one action. An action names everything that the environment decides
(clock, query result, provider answer, whether the answer to a write was lost), so a schedule is a sequence of
actions and a theorem about `Run(EMPTY, actions)` is a theorem about every run. `QueueMoves` says what one step
of a worker amounts to; `QueueInvariants` and `QueueSteps` hold the invariant; `QueueRows` says when each table
changes and to what; `QueueGuarantees`, `QueueProgress`, `QueueOptOut`, `QueueEligibility`, `QueueCalls`,
`RepeatedCalls`, `RepeatedDeliveries`, `AttemptBounds` and `QueueLogs` hold what follows from it; `Deployments`
names what may happen where the queue runs. `MessageWorker`, `MetaWebhook`, `InboundOptOut`, `QueueService` and
`CampaignEngine` are the services as classes: their methods issue the calls of the source one after the other on
a shared `Database`, and between any two of them `Others` lets everybody else take any number of steps.

**Two sagas with compensation.** `MediaMachine` and `ProvisioningMachine` are built the same way, with
`MediaAssetService` and `ProvisioningService` as the control flow of one caller. Every call to the database, the
storage or the external service may fail before or after taking effect, and every caller may crash between two
calls. `MediaOutcomes` says when assets and objects change and to what, `MediaGuarantees` and `MediaLocks` what
follows. The reservation of a channel is a serializable transaction: it reads a snapshot, remembers what it
read, and its commit is refused when a transaction that committed since wrote into its reads and read what it
writes, or when a unique key is taken. `ProvisioningInvariants`, `ProvisioningGuarantees`,
`ProvisioningOutcomes`, `ProvisioningProgress` and `InstanceUniqueness` hold what follows for channels.

**Exact cores.** `EcmaCalendar` has the day arithmetic of section 21.4.1 of ECMA-262 and `Date.UTC` of section
21.4.3.4; `BirthDateWindow` and `DateParsing` rest on it. `PhoneIdentity` has the identity classes of Brazilian
phone numbers and `CustomerImport` the importer built on them. `CampaignSegmentation`, `CampaignStore`,
`CampaignOverlaps` and `CampaignAudience` have configuration, storage and selection of campaign audiences.
`PartSerializer` has the length-prefixed encoding of CPF material.

## What turned out differently

- An opt-out does not hold end to end. Deleting a customer clears `customerId` on its queued messages
  (backend/prisma/schema.prisma:520), and the worker checks consent only when that column is filled.
  `QueueOptOut.OptOutStopsExactlyReferencedMessages` has the exact condition for messages in every status,
  `QueueOptOut.DeletionUndoesAnOptOut` a run.
- A ready media asset can be without its object, when the answer of the commit and the confirming read
  are both lost: `MediaGuarantees.ReadyAssetsAreStored`.
- Content that was not stored can be locked for good. A pending row holds the key of its content, and only its
  own call ever gives the key up (backend/src/media-storage/media-asset.service.ts:240-242), so a call that ends
  without doing so leaves the content to nobody. `MediaLocks.PendingForGoodExactlyWhen` has the exact condition.
  A crash does it, and so do a lost answer to the insert (`MediaLocks.LostInsertLocks`), a lost failure mark and a
  commit that could not be confirmed; `MediaLocks.NoLocksExactlyWhen` says which deployments are safe.
- A channel can get two external instances: `ensureInstance` inspects the name and creates the instance in
  two requests (backend/src/messaging-channel/messaging-channel-provisioning.service.ts:265-281), and nothing
  keeps a second call of the same key from inspecting in between. Whether there can be two depends on the
  external service, which may or may not refuse a name that exists: `InstanceUniqueness.OneInstanceExactlyWhen`
  has the exact condition, `InstanceUniqueness.TwoInstancesHappen` a run.
- The boundary of the birth date window is off exactly when the target year is 0 to 99
  (`BirthDateWindow.BoundaryIsTheAnniversary`), because `Date.UTC` takes such years for years of the
  twentieth century. `BirthDateWindow.WindowIsExact` says when that changes the selection,
  `BirthDateWindow.WindowMeaning` what is selected then. For the same reason the importer refuses such years.
- `maxAttempts` bounds retries, not attempts: recovery and error release do not look at it.
  `AttemptBounds.AttemptsAreBoundedExactlyWhen` says when attempts stay within it all the same,
  `AttemptBounds.BoundIsReached` that the bound with faults cannot be improved.
- A message can reach its customer twice. backend/README.md:659-662 names a failed persistence of the result, and
  a crash does it too (`RepeatedDeliveries.TwiceHappens`). It also happens without any failure of the backend: a
  request that took effect and whose answer was lost is reported as a timeout or a network error
  (backend/src/message-provider/evolution/evolution-message.provider.ts:134-153), and both are retried
  (backend/src/queue/message-worker.service.ts:484-489). `RepeatedDeliveries.DeliveredOnceExactlyWhen` has the
  exact condition.
- Updates of one campaign that overlap can leave it SEGMENTED without a filter, or with more than 100 interests.
  An update is checked against what it read before its transaction and keeps interests that were not sent
  (backend/src/automation/automation.service.ts:466-551). `CampaignOverlaps.SecondUpdateIsSafeExactlyWhen` says
  which updates are safe all the same, `CampaignOverlaps.OverlapLosesTheSegment` has a pair that is not.
- Without a named audience, preview and dispatch choose different ones
  (`CampaignAudience.DefaultAudiencesDiffer`).
- backend/README.md:377 says that an inbound opt-out fails closed when several customers of a company
  share the phone. The code opts out every one of them (backend/src/webhook/inbound-opt-out.service.ts:54-78);
  the model follows the code.

## Model

| member | source | states |
|---|---|---|
| `DeliveryOrder.FoldOutcome` | backend/src/meta-webhook/meta-delivery-transition.ts:4-11 | From no status, any sequence of events ends in FAILED exactly when the first event other than SENT is FAILED, and otherwise in the furthest event |
| `DeliveryOrder.OrderAndRepetitionDoNotMatter` | backend/src/meta-webhook/meta-delivery-transition.ts:4-11 | Two sequences without failures that contain the same events end in the same status, whatever their order and repetitions |
| `DeliveryOrder.RedeliveryIsIdempotent` | backend/src/meta-webhook/meta-webhook.service.ts:12-60 | Going through an already processed prefix of a batch again before the rest gives the same status as going through it once |
| `DeliveryOrder.StatusNeverReturns` | backend/src/meta-webhook/meta-webhook.service.ts:39-46 | Between two reads of the same status it never was another one, so comparing values suffices for the compare-and-set |
| `DeliveryOrder.SettledForGood` | backend/src/meta-webhook/meta-delivery-transition.ts:4-11 | An event that cannot advance the status now cannot advance it after any further events |
| `OutboundRow.UpdateKeepsRowOk` | backend/src/queue/message-worker.service.ts:167-190 | Every conditional update, under its own `where`, keeps what the history of a row says about its columns: lock columns, receipt columns, counters, due time |
| `QueueSteps.StepKeepsInv` | backend/src/queue/message-worker.service.ts:78-136 | One step of any actor (worker, webhook, enqueue, consent, customer or policy change, crash) keeps histories, references, unique keys, consent records and worker positions |
| `QueueSteps.EveryRunIsOk` | backend/src/queue/message-worker.service.ts:78-136 | Every schedule from the empty system keeps that invariant |
| `QueueGuarantees.WritesAreFenced` | backend/src/queue/message-worker.service.ts:340-384 | Without a fencing token: a guarded write that changes anything changes just the row its worker acquired, while that very acquisition still holds it, with the attempts the worker loaded; a worker that lost its lock changes nothing |
| `QueueGuarantees.LocksLastTheirTimeout` | backend/src/queue/message-worker.service.ts:138-190 | Recovery takes a lock only after five minutes, and returns the row to PENDING with its attempts unchanged |
| `QueueGuarantees.RetriesWait` | backend/src/queue/message-worker.service.ts:633-658 | A row is acquired again only after the delay of its last release: one, five or fifteen minutes by attempt, one minute after an error, at once after recovery; acquisition counts one attempt |
| `QueueGuarantees.StatusTellsTheStory` | backend/src/queue/message-worker.service.ts:575-702 | In every run a message has one log of the same outcome when it is SENT or FAILED and none otherwise; locks exist exactly while PROCESSING; sending time and receipts only when SENT |
| `QueueGuarantees.TerminalStatesAreFinal` | backend/src/queue/message-worker.service.ts:333-358 | SENT, FAILED and CANCELLED are absorbing in every continuation, logs included, and no row disappears or changes what was enqueued |
| `QueueGuarantees.ReceiptsOnlyMoveDelivery` | backend/src/meta-webhook/meta-webhook.service.ts:37-60 | A receipt takes effect exactly on a SENT row of its provider reference whose delivery status is the one read and which it advances; then exactly the status, the time of its own event and, for a failure, the code are stored |
| `QueueRows.RowsChangeOnlySo` | backend/src/queue/message-worker.service.ts:138-702 | In every run: when exactly each action changes a message, and every column afterwards, with the delays of one, five and fifteen minutes, the five minutes of a lock and all error codes |
| `QueueRows.MessagesStartOnlySo` | backend/src/queue/queue.service.ts:75-111 | A row comes into being exactly by an insert whose trimmed key is free and whose customer is one of the company, with nothing else filled |
| `QueueRows.LogsChangeOnlySo` | backend/src/queue/message-worker.service.ts:575-702 | Exactly an effective final outcome adds a log, with the customer as loaded and the sending time of a success; no log ever changes |
| `QueueRows.CustomersChangeOnlySo` | backend/src/customer/customer-consent.service.ts:13-61 | Consent columns change only by a grant or a withdrawal, as it says; identifiers of deleted customers never come back |
| `QueueRows.PoliciesChangeOnlySo` | backend/src/customer/customer-eligibility.service.ts:20-35 | The policy of a company is the one that was set last |
| `QueueGuarantees.AttemptsAreConserved` | backend/src/queue/message-worker.service.ts:621-658 | Attempts equal retry releases plus recoveries plus error releases plus one unless PENDING; retries stay below `maxAttempts`, so attempts are at most `maxAttempts` plus the faults |
| `AttemptBounds.AttemptsHaveNoBound` | backend/src/queue/message-worker.service.ts:138-202 | From every reachable state a pending message can be attempted any number of times more, by recoveries of its lock alone or by failed database calls alone, whatever `maxAttempts` says |
| `AttemptBounds.BoundIsReached` | backend/src/queue/message-worker.service.ts:621-658 | The bound is the best one: for every `maxAttempts` and every number of faults some run reaches it |
| `AttemptBounds.AttemptsAreBoundedExactlyWhen` | backend/src/queue/message-worker.service.ts:138-202 | In all runs of a deployment attempts stay within `maxAttempts` if and only if no expired lock is ever found and no database call fails while a message is processed |
| `Deployments.NoFaultsWithoutDecisions` | backend/src/queue/message-worker.service.ts:138-202 | Without expired locks to find and with every database call answered no lock is ever recovered and no message released after an error |
| `QueueGuarantees.FiniteFaultsForceAnEnd` | backend/src/queue/message-worker.service.ts:204-271 | With f recoveries and error releases a row is updated at most 2(maxAttempts + f) times, and it is terminal by the last of them |
| `QueueProgress.EveryMessageCanEnd` | backend/src/queue/message-worker.service.ts:138-271 | From every reachable state an idle worker can bring any message to SENT, FAILED or CANCELLED by steps of its own alone: without a fault when it is PENDING, with exactly the one recovery of its lock when it is PROCESSING |
| `QueueGuarantees.OneMessageAndOneLogPerKey` | backend/src/queue/queue.service.ts:44-111 | In every run a company has at most one message for an idempotency key and at most one log for it, and every log has its message |
| `QueueOptOut.CallsRespectConsent` | backend/src/queue/message-worker.service.ts:256-331 | A provider call is made for the row acquired at the recorded moment, and at some moment after that acquisition its customer was not opted out, unless it had been deleted |
| `QueueOptOut.OptOutHolds` | backend/src/customer/customer-eligibility.service.ts:20-47 | An opt-out on record that no grant follows stops every acquisition made after it, as long as the customer is not deleted |
| `QueueOptOut.OptOutStopsExactlyReferencedMessages` | backend/prisma/schema.prisma:520 | For any message of an opted-out customer, PENDING, PROCESSING or ended: some schedule without grant or deletion still calls the provider for it if and only if its reference to the customer was cleared, it can be sent at all, and it has not ended |
| `QueueOptOut.DeletionUndoesAnOptOut` | backend/prisma/schema.prisma:520 | A concrete run: opt-out, then deletion of the customer, then the queued message goes out |
| `Consent.LastChangeDecides` | backend/src/customer/customer-consent.service.ts:42-61 | After any sequence of consent changes the last one decides status and opt-out time, the time of the last grant survives later opt-outs, and nobody is eligible after a withdrawal |
| `QueueEligibility.CallsAreToEligibleCustomers` | backend/src/queue/message-worker.service.ts:273-331 | A provider is called for a customer only if, after the acquisition that calls, the company had a policy and later the customer was in the company, active, and either GRANTED or UNKNOWN under ALLOW_UNKNOWN_WITH_DECLARATION (or was deleted) |
| `QueueEligibility.CancellationsAreJustified` | backend/src/queue/message-worker.service.ts:273-358 | A message is cancelled only when, after the acquisition, its customer was not in the company; or was inactive, OPTED_OUT, or UNKNOWN under BLOCK_UNKNOWN; or the company was gone. The error code tells which |
| `QueueCalls.OneCallPerAcquisition` | backend/src/queue/message-worker.service.ts:204-271 | An acquisition calls the provider at most once, in every run |
| `QueueCalls.SentMeansCalled` | backend/src/queue/message-worker.service.ts:575-619 | A message becomes SENT only by the worker that still holds it, after a call made by this very acquisition, with the provider and message id of the answer |
| `QueueCalls.CallsAreRoutable` | backend/src/queue/message-worker.service.ts:392-425 | The provider is called only for a message that has a channel and, unless it is a text, a payload that can be read |
| `RepeatedCalls.CallsAreAttempts` | backend/src/queue/message-worker.service.ts:204-271 | In every run a message has at most as many provider calls as attempts |
| `RepeatedCalls.AcceptedMessagesNeedAFault` | backend/src/queue/message-worker.service.ts:392-495 | After a call whose acceptance arrived the message is acquired again only if between the two acquisitions its lock was recovered or it was released after an error |
| `RepeatedCalls.AnsweredMessagesNeedAReason` | backend/src/queue/message-worker.service.ts:392-495 | After any answer the message is acquired again only if its lock was recovered or it was released after an error, or the answer allows a retry and it was released for one |
| `RepeatedCalls.CalledTwiceNeedsAReason` | backend/src/queue/message-worker.service.ts:392-495 | Two calls that were made for one message belong to different acquisitions, with such a fault between them, or with a release for retry after an answer that allows one |
| `RepeatedDeliveries.TwiceHappens` | backend/src/queue/message-worker.service.ts:138-202 | A concrete run in which the same message goes out twice: after a crash, after a lost outcome write, or without any of them after a call that took effect and was answered with a timeout |
| `RepeatedDeliveries.DeliveredOnceExactlyWhen` | backend/src/queue/message-worker.service.ts:138-495 | In all runs of a deployment every message goes out at most once if and only if no expired lock is ever found, no database call fails while a message is processed, and no call that sent the message out is answered with an error that allows a retry |
| `QueueLogs.LogsAgreeWithMessages` | backend/src/queue/message-worker.service.ts:575-702 | Every log ever created agrees with its message for good: outcome, sending time and customer |
| `MessageWorker.Worker.HandleCron` | backend/src/queue/message-worker.service.ts:78-136 | An execution runs only when enabled and not already running, ends with the worker idle, and tries every message of the batch that its query found once, in order, whatever happens to the others |
| `MessageWorker.Worker.RecoverExpiredLocks` | backend/src/queue/message-worker.service.ts:138-202 | The counter returned is the number of locks that this worker recovered and knows about |
| `MessageWorker.Worker.AcquireAndProcess` | backend/src/queue/message-worker.service.ts:204-271 | Tries to acquire the first message of the rest of the batch; whatever throws on the way, the worker goes on with the rest and holds nothing |
| `MessageWorker.Worker.RevalidateCustomerEligibility` | backend/src/queue/message-worker.service.ts:273-331 | True only with the message ready to send and, if it has a customer, that customer eligible after the acquisition. False, and not waiting for its release: the last step was the cancellation, and if the worker still had the lock the row is CANCELLED with the code of a reason that held after the acquisition |
| `MessageWorker.Worker.ProcessMessage` | backend/src/queue/message-worker.service.ts:392-495 | After an answered outcome write, if the worker still had the lock, the row is SENT as the provider answered, PENDING with the delay of its attempt, or FAILED, as the answer and `maxAttempts` say; only a call that was made is accepted, and a message without a channel, with an unreadable image or template, or of another type is refused for good without a call, each with its own code; otherwise the message waits for its release |
| `MetaWebhook.MetaWebhookService.Handle` | backend/src/meta-webhook/meta-webhook.service.ts:10-67 | Success means that every event of the batch was correlated during the call with no message or with exactly one, which it cannot advance any more, under any interleaving; and unless it could not advance it from the start, the time of the event (or of the clock) and the code (or META_DELIVERY_FAILED) were stored. An error has its reason |
| `MetaWebhook.MetaWebhookService.HandleEvent` | backend/src/meta-webhook/meta-webhook.service.ts:13-60 | No error for an event means the same for this event; an error means that several messages have the reference, that the read or the write failed, or that somebody else moved the delivery status in between |
| `MetaWebhook.AcknowledgedEventsStaySettled` | backend/src/meta-webhook/meta-webhook.service.ts:61-66 | An acknowledged event never again advances its message in any later state |
| `QueueService.OutboundQueue.Enqueue` | backend/src/queue/queue.service.ts:44-111 | Success returns the one message that holds the trimmed key in the company, among any concurrent enqueues; a row that this call created is the input column by column, three attempts by default, with a channel pinned, due when asked; unaccepted content succeeds only if the message was there before; each refusal has its reason |
| `QueueService.OutboundQueue.Create` | backend/src/queue/queue.service.ts:75-111 | A created row is PENDING with no attempts, nothing else filled, and the columns of the input, and is the only one of its key; a taken key is refused, and a refusal changes no row |
| `QueueService.RepeatedEnqueuesReturnTheSameRow` | backend/src/queue/queue.service.ts:44-56 | The message found for a key at any later time is the same row with the same channel pin |
| `InboundOptOut.InboundOptOutService.Process` | backend/src/webhook/inbound-opt-out.service.ts:24-84 | Unless a database call fails, a command leaves every customer found at the query opted out before it, by a write of this call, or gone; it is applied exactly when this call opted somebody out |
| `InboundOptOut.CustomerConsentService.UpdateConsent` | backend/src/customer/customer-consent.service.ts:13-61 | Grants or withdraws: refuses UNKNOWN without a write; success means that the write of this very call took effect; not found means that the customer is gone, if it was there; a database error, that a call failed |
| `InboundOptOut.FindsEveryStoredSpelling` | backend/src/webhook/inbound-opt-out.service.ts:32-46 | The query finds exactly the customers of the company stored under the identity of the sender |
| `InboundOptOut.ProcessedOptOutsHold` | backend/src/webhook/inbound-opt-out.service.ts:54-78 | From the position of the write of an opt-out on, and until a grant after it, no acquisition calls the provider for the customer, under every interleaving; deletion is the one exception |
| `IdempotencyKeys.CampaignKeysAreInjective` | backend/src/automation/engine/engine.service.ts:484 | Campaign keys of colon-free identifiers determine campaign and customer |
| `IdempotencyKeys.RecurringKeysAreInjective` | backend/src/automation/engine/engine.service.ts:653-658 | Recurring keys determine automation, customer, cycle and date |
| `IdempotencyKeys.KeyFormatsAreDisjoint` | backend/src/automation/engine/engine.service.ts:484 | No campaign key is a recurring key |
| `IdempotencyKeys.CampaignKeyAsText` | backend/src/automation/engine/engine.service.ts:487 | The key of a campaign message, letter by letter |
| `IdempotencyKeys.RecurringKeyAsText` | backend/src/automation/engine/engine.service.ts:653-658 | The key of a recurring message, letter by letter, for birthdays and for other cycles |
| `CampaignEngine.EngineService.EnqueueUnlessActive` | backend/src/automation/engine/engine.service.ts:469-484 | With a PENDING or PROCESSING message of the automation for the customer nothing is written; otherwise success leaves a message under the key; the insert that the call issues, if any, is for this customer, by this automation, under this key, with a channel; only a failed look ends in a read error |
| `CampaignEngine.EngineService.EnqueueCampaignMessage` | backend/src/automation/engine/engine.service.ts:459-538 | The same for a campaign and its key |
| `CampaignEngine.EngineService.EnqueueCampaign` | backend/src/automation/engine/engine.service.ts:205-284 | Success counts the eligible customers of the audience, and each of them has exactly one message of the campaign, whatever other dispatches run; a refused audience changes nothing |
| `CampaignEngine.EngineService.SendMessage` | backend/src/automation/engine/engine.service.ts:576-651 | Nothing happens for a customer who is inactive, OPTED_OUT, or UNKNOWN under BLOCK_UNKNOWN, or without a policy; otherwise success means that the customer has a message of the automation; in any case there is at most one under the key of the day |
| `CampaignEngine.OneMessagePerCampaignAndCustomer` | backend/src/automation/engine/engine.service.ts:459-538 | Over any number of concurrent or repeated dispatches, with any content, a customer has at most one message of a campaign |
| `CampaignEngine.OneMessagePerCustomerAndDate` | backend/src/automation/engine/engine.service.ts:653-658 | Two messages of a recurring automation for a customer are the same exactly when their dates are |
| `CampaignEngine.CampaignKeyFindsItsOwn` | backend/src/automation/engine/engine.service.ts:484 | The message found under the key of a campaign and customer is of that campaign and customer |
| `CampaignEngine.RecurringKeyFindsItsOwn` | backend/src/automation/engine/engine.service.ts:653-658 | The same for recurring keys |
| `CampaignEngine.ServedMeansExactlyOne` | backend/src/automation/engine/engine.service.ts:247-265 | A customer who has a message of the campaign, or one under its key, has exactly one of the campaign |
| `CampaignAudience.PreviewAgreesWithDispatch` | backend/src/automation/engine/engine.service.ts:205-343 | For a named audience on the same day, dispatch enqueues for exactly as many as preview calls eligible, matched is eligible plus blocked, and preview accepts what dispatch accepts (and the converse, up to what only dispatch asks for) |
| `CampaignAudience.DispatchSelectsExactly` | backend/src/automation/engine/engine.service.ts:375-432 | Dispatch selects exactly those of the named audience (all, the listed ones, or those in the segment, with the bounds the window stands for) who are active and either GRANTED or UNKNOWN under ALLOW_UNKNOWN_WITH_DECLARATION |
| `CampaignAudience.SegmentIsSelectedExactly` | backend/src/automation/campaign/campaign-segmentation.ts:172-242 | For all segments and dates: the segment query selects exactly the customers whose gender, city, state, purchases and interests are as configured and whose age lies between the bounds that the window stands for, which are the configured ones if and only if no target year is 0 to 99 |
| `CampaignAudience.BuildSegmentedCustomerWhere` | backend/src/automation/campaign/campaign-segmentation.ts:172-242 | Whoever satisfies the conditions pushed one by one is in the segment, and nobody else; dispatch and preview run this query |
| `CampaignAudience.DefaultAudiencesDiffer` | backend/src/automation/engine/engine.service.ts:231-246 | For every request without a named audience: preview accepts a stored campaign exactly when no list is given, dispatch exactly when it is stored for everybody (up to what only dispatch asks for); both accept, and then agree, if and only if both hold |
| `CampaignAudience.NamedAudiencesAcceptedExactly` | backend/src/automation/engine/engine.service.ts:205-343 | A named audience is accepted by preview exactly for a campaign of the company that it fits, with a list of at most 500 customers and no blank one where one belongs; dispatch also asks for content and an active campaign |
| `CampaignAudience.PreviewCampaignAudience` | backend/src/automation/engine/engine.service.ts:286-343 | The preview as the service runs it: matched is eligible plus blocked, and no count is negative |
| `CampaignAudience.StoredCampaignsAreSelectable` | backend/src/automation/engine/engine.service.ts:398-423 | The re-check of a valid configuration never refuses it; creations and updates one after the other store only valid ones |
| `CampaignSegmentation.StoredFormIsStable` | backend/src/automation/campaign/campaign-segmentation.ts:92-137 | A segmentation is left as it is by normalisation exactly when it is normal; normalising twice changes nothing |
| `CampaignSegmentation.NormalizedIsNormal` | backend/src/automation/campaign/campaign-segmentation.ts:92-137 | Accepted input has tidy texts, a known state, ages from 0 to 120 and bounds in order |
| `CampaignSegmentation.LettersAreCapitalized` | backend/src/customer/customer-state.ts:42 | Upper case turns exactly the small letters of ASCII into their capitals |
| `CampaignSegmentation.PartialUpdateFieldByField` | backend/src/automation/automation.service.ts:607-625 | In a partial update an omitted field stays, null clears, a value replaces |
| `CampaignStore.RequestedIsOk` | backend/src/automation/automation.service.ts:414-563 | An accepted update of a valid configuration is valid: SEGMENTED with a filter and at most 100 interests, other audiences with none |
| `CampaignStore.CreatedIsOk` | backend/src/automation/automation.service.ts:191-261 | An accepted creation is valid in the same sense |
| `CampaignStore.DispatchRecheckPasses` | backend/src/automation/campaign/campaign-segmentation.ts:145-170 | On a stored configuration the checks of dispatch succeed and change nothing |
| `CampaignStore.AutomationService.CreateCampaign` | backend/src/automation/automation.service.ts:191-261 | Stored scalars and interests equal the configuration that was validated, or nothing changed; the request is accepted exactly under the stated conditions |
| `CampaignStore.AutomationService.UpdateCampaign` | backend/src/automation/automation.service.ts:414-563 | The same for a partial update that no other one overlaps, other campaigns unchanged |
| `CampaignStore.AutomationService.ApplyUpdate` | backend/src/automation/automation.service.ts:414-563 | What an update writes when the tables changed since they were read: audience and scalars from what was read, interests that were not sent from what is stored now |
| `CampaignOverlaps.SecondUpdateIsSafeExactlyWhen` | backend/src/automation/automation.service.ts:414-563 | Of two updates that read the same valid configuration the second to commit leaves a valid one, whatever the first, if and only if it touches no configuration, is not SEGMENTED, sends both lists of interests, or has a scalar filter and sends no interest |
| `CampaignOverlaps.HistoriesStayValid` | backend/src/automation/automation.service.ts:414-563 | Any number of overlapping updates keeps every stored configuration valid, if each is of that kind or writes over what it read |
| `CampaignOverlaps.OverlapLosesTheSegment` | backend/src/automation/automation.service.ts:414-563 | Two accepted updates that leave a SEGMENTED campaign without a filter, which dispatch refuses |
| `CampaignStore.AutomationService.AssertValidCampaignInterestOptions` | backend/src/automation/automation.service.ts:678-711 | Accepts exactly lists of distinct active options of the company with the kind of their list |
| `CampaignStore.AutomationService.ReplaceCampaignInterestFilterGroup` | backend/src/automation/automation.service.ts:713-739 | Replaces the interests of one kind and leaves the other kind and other campaigns alone |
| `EcmaCalendar.FromDayOfDate` | backend/src/customer/customer-filter.helpers.ts:6-16 | A real date is found again from its day number |
| `EcmaCalendar.ToDayOfFromDay` | backend/src/customer/customer-filter.helpers.ts:6-16 | A day number is found again from its date |
| `EcmaCalendar.DayOrder` | backend/src/customer/customer-filter.helpers.ts:18-32 | Day numbers are ordered as year, month and day |
| `EcmaCalendar.FromDayCounts` | backend/src/customer/customer-filter.helpers.ts:6-16 | Day 0 is 1 January 1970, and every other day is the one that counting month lengths and leap years from there leads to, forwards or backwards |
| `EcmaCalendar.DayZeroOfNextMonth` | backend/src/customer/customer-filter.helpers.ts:9-11 | Day 0 of the next month is the last day of the month, December and February of leap years included |
| `EcmaCalendar.OverflowChangesExactlyUnrealDates` | backend/src/customer/import/customer-import-normalizer.ts:95-106 | Exactly the real dates come back unchanged from the overflow arithmetic |
| `BirthDateWindow.BoundaryIsTheAnniversary` | backend/src/customer/customer-filter.helpers.ts:6-16 | The boundary is the anniversary, moved to the end of the month where needed, if and only if the target year is outside 0 to 99 |
| `BirthDateWindow.WindowIsExact` | backend/src/customer/customer-filter.helpers.ts:18-32 | All birth dates are classified by their completed years, 29 February on either side included, if and only if no target year is 0 to 99 or both the asked and the computed range of ages are empty |
| `BirthDateWindow.WindowMeaning` | backend/src/customer/customer-filter.helpers.ts:18-32 | For all bounds and dates: a birth date lies in the window exactly when the completed years lie between the bounds computed with the years that `Date.UTC` reads |
| `DateParsing.TextsAcceptedExactly` | backend/src/customer/import/customer-import-normalizer.ts:68-115 | A text is accepted exactly when it is the ISO or DD/MM/YYYY print of a real date from the year 100 that is not after today, and becomes the ISO print of that date |
| `DateParsing.TimesAcceptedExactly` | backend/src/customer/import/customer-import-normalizer.ts:68-76 | A point in time is accepted exactly when its day, counted on the calendar, is not after today and outside the years 0 to 99, and is printed as that day |
| `DateParsing.SurvivesUtc` | backend/src/customer/import/customer-import-normalizer.ts:95-106 | Exactly the real dates outside the years 0 to 99 survive `Date.UTC` |
| `DateParsing.TodayIsToday` | backend/src/customer/import/customer-import-normalizer.ts:108-112 | The limit is the day of the clock exactly when the year of the clock is outside 0 to 99 |
| `DateParsing.NormalizingAgainIsTheIdentity` | backend/src/customer/import/customer-import-normalizer.ts:89-115 | Normalising an accepted date again changes nothing exactly when its year has four digits |
| `DateParsing.StoredDayIsTheDay` | backend/src/customer/import/customer-import.service.ts:62-67 | The insert stores the day that the cell shows, counted on the calendar; for a year without four digits, whose text is cut off, the first of its month; nothing for an empty cell |
| `PhoneIdentity.NormalizeIsIdempotent` | backend/src/customer/customer-normalization.ts:28-45 | Normalisation is idempotent on all strings |
| `PhoneIdentity.VariantsAreTheIdentityClass` | backend/src/customer/customer-normalization.ts:59-73 | The variants of a valid phone are exactly the stored spellings with its normal form, the normal form first |
| `PhoneIdentity.SharedVariantsMeanSameIdentity` | backend/src/customer/customer-normalization.ts:59-73 | Two valid phones share a variant if and only if they normalise equally |
| `PhoneIdentity.ValidPhonesAreNormal` | backend/src/customer/customer-normalization.ts:47-57 | A valid phone is its own normal form |
| `PhoneIdentity.SpellingsNormalize` | backend/src/customer/customer-normalization.ts:1-45 | For every subscriber, landline or mobile: exactly the spellings of its number, with or without country code and ninth digit and with anything between the digits, have the number in full as normal form |
| `PhoneIdentity.ValidMeansInFull` | backend/src/customer/customer-normalization.ts:47-57 | A phone is valid exactly when it is 55, an area code and the number of a landline or mobile subscriber in full |
| `CustomerImport.NormalizeCustomerImportRow` | backend/src/customer/import/customer-import-normalizer.ts:126-199 | The errors pushed field by field and the data are those of the row |
| `CustomerImport.ErrorFreeRows` | backend/src/customer/import/customer-import-normalizer.ts:126-199 | A row has no errors exactly when it has a name, a valid phone, readable gender, consent and state and acceptable dates; its data are what they say |
| `CustomerImport.CleanRowsAreTidy` | backend/src/customer/import/customer-import-normalizer.ts:126-199 | Data of a row without errors are tidy: name and city trimmed and collapsed, known state, phone in stored normal form |
| `CustomerImport.CustomerImportService.Classify` | backend/src/customer/import/customer-import.service.ts:100-165 | Statuses in one pass over the rows; the four counts add up to the rows of the file |
| `CustomerImport.StatusMeaning` | backend/src/customer/import/customer-import.service.ts:137-151 | INVALID, DUPLICATE_IN_FILE, EXISTING and NEW told by the errors, the earlier rows and the stored spellings of the phone |
| `CustomerImport.CountsAddUp` | backend/src/customer/import/customer-import.service.ts:153-161 | The four statuses partition the rows |
| `CustomerImport.LookupAnswersForEach` | backend/src/customer/import/customer-import.service.ts:115-133 | One query for the variants of all phones answers for each phone alone |
| `CustomerImport.CustomerImportService.Execute` | backend/src/customer/import/customer-import.service.ts:42-98 | Exactly the NEW rows are stored, each under an identifier of its own and column by column from its own cells, or nothing changed; the count is the growth of the table; with unused identifiers only the database refuses |
| `CustomerImport.NewCustomersAreTheirRows` | backend/src/customer/import/customer-import.service.ts:51-85 | Each new customer has the company, phone, name, gender, city, state, birth day and purchase day of its own cells, is active, and has the time of the import as grant or opt-out exactly as its consent says |
| `CustomerImport.NewRowsAreNew` | backend/src/customer/import/customer-import.service.ts:137-151 | NEW rows are nobody stored in the company and nobody else of the file |
| `CustomerImport.ImportKeepsIdentitiesUnique` | backend/src/customer/import/customer-import.service.ts:42-98 | If no two stored customers of a company share an identity before, none do after |
| `CustomerImport.SecondImportAddsNothing` | backend/src/customer/import/customer-import.service.ts:42-98 | The same file on the same day again: exactly the NEW rows have become EXISTING, every other status stays |
| `PartSerializer.SerializeParts` | backend/src/customer/cpf/customer-cpf-crypto.ts:168-177 | Fails exactly when a part has 2^32 bytes or more; the bytes written are the parts, each behind its length in four bytes, the highest first, and decode to the parts |
| `PartSerializer.EncodingLaysOut` | backend/src/customer/cpf/customer-cpf-crypto.ts:168-177 | Bytes are the encoding of parts if and only if they are the parts one after the other, each behind its length with the highest byte first |
| `PartSerializer.DecodeInverts` | backend/src/customer/cpf/customer-cpf-crypto.ts:168-177 | A decoder inverts the encoding of any number of parts |
| `PartSerializer.DecodedBytesAreEncodings` | backend/src/customer/cpf/customer-cpf-crypto.ts:168-177 | Bytes that decode are the encoding of what they decode to |
| `PartSerializer.EncodingIsInjective` | backend/src/customer/cpf/customer-cpf-crypto.ts:168-177 | Encodings are equal exactly when the lists are |
| `PartSerializer.MaterialsNeverCoincide` | backend/src/customer/cpf/customer-cpf-crypto.ts:54-59 | Hash material determines tenant, key version and CPF, and never equals the additional data of the encryption |
| `MediaMachine.StepKeepsInv` | backend/src/media-storage/media-asset.service.ts:166-276 | Every call to database or storage, answered or lost, keeps the place of row and object of every call and the unique key |
| `MediaMachine.EveryRunIsOk` | backend/src/media-storage/media-asset.service.ts:47-87 | Every schedule of concurrent creations keeps that invariant |
| `MediaGuarantees.OneUploadPerContent` | backend/src/media-storage/media-asset.service.ts:166-228 | At most one upload of the same content of a company is in flight in any state |
| `MediaLocks.PendingForGoodExactlyWhen` | backend/src/media-storage/media-asset.service.ts:278-417 | A pending row stays pending in every continuation if and only if its call is over, whatever ended it, or is deleting its upload without marking the row afterwards; in every other case its call can still get it out |
| `MediaLocks.LockedContentIsLost` | backend/src/media-storage/media-asset.service.ts:230-276 | From then on, in every continuation, no other call of that content gets to upload it, and no call of that content, begun before or after, returns an asset that it has not returned already |
| `MediaLocks.LostInsertLocks` | backend/src/media-storage/media-asset.service.ts:175-197 | A concrete run without a crash: the insert takes effect, its answer is lost, the call throws, and the content is locked for good |
| `MediaLocks.AnsweredCallsLeaveNoLock` | backend/src/media-storage/media-asset.service.ts:47-87 | A call whose own database calls were all answered and which did not crash leaves no lock behind, whatever the storage and the others do |
| `MediaLocks.NoLocksExactlyWhen` | backend/src/media-storage/media-asset.service.ts:47-87 | No content is ever locked if and only if the database answers every call and no call crashes |
| `MediaGuarantees.ReadyAssetsAreStored` | backend/src/media-storage/media-asset.service.ts:278-355 | The object of a ready asset is in storage if and only if its upload was not deleted after both the answer of the commit and the confirming read were lost |
| `MediaGuarantees.LostAnswersLeaveAReadyAssetWithoutObject` | backend/src/media-storage/media-asset.service.ts:392-400 | A concrete run into that exception |
| `MediaGuarantees.FailedCallsCleanUp` | backend/src/media-storage/media-asset.service.ts:364-417 | A creation that fails after an acknowledged upload leaves no object unless the delete failed or READY was confirmed; one that fails before any upload leaves none |
| `MediaGuarantees.OwnAssetsStayStored` | backend/src/media-storage/media-asset.service.ts:340-355 | A creation that returns its own asset has its object in storage for good |
| `MediaGuarantees.KeysAreGivenUpRightly` | backend/src/media-storage/media-asset.service.ts:230-276 | A key is lost only by the failure of its own upload or by a call whose clock has reached the expiry of a ready asset, which schedules the deletion |
| `MediaGuarantees.ReusedAssetsAreFresh` | backend/src/media-storage/media-asset.service.ts:243-249 | A reused asset is ready, of the same content and company, and expires later than the clock of the lookup, or never |
| `MediaOutcomes.LookupsDecide` | backend/src/media-storage/media-asset.service.ts:230-276 | Exactly a pending holder of the key is a conflict, exactly a ready one that expires later is reused, and exactly an expired or failed one is to be released |
| `MediaOutcomes.EveryCallEnds` | backend/src/media-storage/media-asset.service.ts:47-87 | From every reachable state a new call that meets no failure reuses the asset of its content, is refused while the content is being stored, or stores an asset of its own, as the table stands |
| `MediaOutcomes.AssetsChangeOnlySo` | backend/src/media-storage/media-asset.service.ts:166-451 | When exactly each call changes an asset, and to what: release, commit and failure mark, each unless it is lost before it takes effect |
| `MediaOutcomes.AssetsStartPending` | backend/src/media-storage/media-asset.service.ts:166-197 | A row comes into being exactly by an insert of a call whose content nobody keeps, pending and with its key |
| `MediaOutcomes.ObjectsChangeOnlySo` | backend/src/media-storage/media-asset.service.ts:278-470 | Objects come by the upload and go by the delete of their own call, each unless it is lost before it takes effect |
| `MediaAssetService.MediaAssetService.Create` | backend/src/media-storage/media-asset.service.ts:47-87 | Returns a ready asset with the requested content as stored at that moment, one of another call only if it expires later than the clock of the last lookup says, or throws leaving no object as stated, under any interleaving |
| `MediaAssetService.MediaAssetService.CreatePendingAsset` | backend/src/media-storage/media-asset.service.ts:166-228 | One bounded retry after a refused insert, ending in an upload, a reused asset or an error |
| `MediaAssetService.MediaAssetService.UploadAndFinalize` | backend/src/media-storage/media-asset.service.ts:278-355 | Returns its own stored asset only after an acknowledged upload |
| `ProvisioningInvariants.StepKeepsInv` | backend/src/messaging-channel/messaging-channel-provisioning.service.ts:283-367 | Every step of concurrent calls and of others keeps unique keys and names, the balance of instances, the limits, what committed transactions wrote and the position of each call |
| `ProvisioningInvariants.EveryRunIsOk` | backend/src/messaging-channel/messaging-channel-provisioning.service.ts:74-114 | Every run keeps that invariant |
| `ProvisioningGuarantees.OneChannelPerKey` | backend/src/messaging-channel/messaging-channel-provisioning.service.ts:294-300 | A key has one channel for all time, under one instance name |
| `ProvisioningGuarantees.SameKeySameChannel` | backend/src/messaging-channel/messaging-channel-provisioning.service.ts:74-114 | Two calls past the reservation work on the same channel if and only if they have the same company and key |
| `ProvisioningGuarantees.LostReservationsAreResumed` | backend/src/messaging-channel/messaging-channel-provisioning.service.ts:283-367 | A call after a lost answer finds the reserved channel and reserves no other |
| `ProvisioningGuarantees.InstancesAreAccountedFor` | backend/src/messaging-channel/messaging-channel-provisioning.service.ts:265-281 | Instances created under a name are those removed plus those there; every name with an instance is the name of exactly one channel |
| `InstanceUniqueness.RefusalKeepsOne` | backend/src/messaging-channel/messaging-channel-provisioning.service.ts:265-281 | With a service that refuses names that exist no name ever has two instances, however the calls overlap |
| `InstanceUniqueness.SeparationKeepsOne` | backend/src/messaging-channel/messaging-channel-provisioning.service.ts:265-281 | With any service: as long as no two calls stand between inspection and creation for the same channel, no name has two instances |
| `InstanceUniqueness.SerialCallsNeverOverlap` | backend/src/messaging-channel/messaging-channel-provisioning.service.ts:74-114 | That is so when nobody starts a call of a key while another of the same key is unfinished |
| `InstanceUniqueness.TwoInstancesHappen` | backend/src/messaging-channel/messaging-channel-provisioning.service.ts:265-281 | A concrete run of two overlapping calls of one key that leaves two instances under its name, for any company, key and names |
| `InstanceUniqueness.OneInstanceExactlyWhen` | backend/src/messaging-channel/messaging-channel-provisioning.service.ts:265-281 | No name ever has two instances if and only if the service refuses names that exist or such calls never overlap |
| `ProvisioningGuarantees.ProvisionedMeansInstance` | backend/src/messaging-channel/messaging-channel-provisioning.service.ts:74-114 | A successful call has a channel of its key, whose instance was created and exists unless it was removed |
| `ProvisioningGuarantees.ReservationsRespectTheLimit` | backend/src/messaging-channel/messaging-channel-provisioning.service.ts:303-321 | A commit that adds a channel counted, in the snapshot of its transaction, all channels that the company still has, so it leaves the company within the limit it read; a company never exceeds the highest limit it was given |
| `ProvisioningGuarantees.ConflictsAreMissedChannels` | backend/src/messaging-channel/messaging-channel-provisioning.service.ts:283-367 | A transaction that is about to reserve conflicts with none that committed since its snapshot if and only if its count is still complete |
| `ProvisioningGuarantees.ProvisioningNeverActivates` | backend/src/messaging-channel/messaging-channel-provisioning.service.ts:369-399 | An active channel was activated by the routing administration, never by provisioning |
| `ProvisioningOutcomes.ChannelsChangeOnlySo` | backend/src/messaging-channel/messaging-channel-provisioning.service.ts:369-430 | When exactly each action changes a channel, and to what: reports, the mark of a failed call, and the activity that administration sets |
| `ProvisioningOutcomes.ChannelsStartEmpty` | backend/src/messaging-channel/messaging-channel-provisioning.service.ts:323-333 | A channel starts inactive, PROVISIONING, without a phone, with company, key and name of its reservation |
| `ProvisioningOutcomes.LimitRefusalsAreRight` | backend/src/messaging-channel/messaging-channel-provisioning.service.ts:303-321 | A call is refused for the limit only if at a moment of the call its company had no channel under the key and as many channels as the limit set last, or more |
| `ProvisioningOutcomes.ChannelsWereAllowed` | backend/src/messaging-channel/messaging-channel-provisioning.service.ts:303-321 | A company that has channels was once given a limit of at least so many |
| `ProvisioningOutcomes.SecondLooksDecide` | backend/src/messaging-channel/messaging-channel-provisioning.service.ts:346-367 | After a violated key a call takes up the channel that another one reserved, or starts over, at most three times; only a failed read ends it |
| `ProvisioningOutcomes.CrashesStop` | backend/src/messaging-channel/messaging-channel-provisioning.service.ts:74-114 | A call that is not over can stop anywhere; then nothing of it goes on, and the tables are as it left them |
| `ProvisioningProgress.EveryCallCanSucceed` | backend/src/messaging-channel/messaging-channel-provisioning.service.ts:74-114 | From every state a new call that meets no failure is provisioned by its own steps, with the channel of its key or, below the limit, with a new one |
| `ProvisioningProgress.FullCompaniesAreRefused` | backend/src/messaging-channel/messaging-channel-provisioning.service.ts:303-321 | At the limit a new key gets no channel, and the refusal says so |
| `ProvisioningService.MessagingChannelProvisioningService.Provision` | backend/src/messaging-channel/messaging-channel-provisioning.service.ts:74-114 | Success returns the channel of the key with an instance and with the reported connection and phone in its row; a failure after the reservation has marked the channel as ERROR unless that write was lost; a refusal for the limit met a company that had reached it; every other end is a refusal that says why |
| `ProvisioningService.MessagingChannelProvisioningService.ReserveChannel` | backend/src/messaging-channel/messaging-channel-provisioning.service.ts:283-367 | Ends with a channel or a refusal, after at least one and at most three transactions |
| `ProvisioningService.MessagingChannelProvisioningService.EnsureInstance` | backend/src/messaging-channel/messaging-channel-provisioning.service.ts:265-281 | Goes on to the configuration only with the instance of the channel in existence at that moment; otherwise an error is to be marked |

## Left out

- HTTP providers, the Evolution and Meta clients, Firebase: present only as outcomes (accepted, refused for
  good or for now, and after a refusal whether the message went out all the same).
- Field validation of messages and media, URL parsing, message texts and footers: present as accepted or
  refused (`contentAccepted`, `readable`, `hasContent`, `tooLong`).
- Which candidates a query returns, and in which order: any list; batch size and priority are not modelled.
- Free texts of errors (`lastError`) and log messages; error codes are modelled.
- Database writes and external creations that take effect after their caller has been told that they failed,
  or after it has crashed. A late creation could give a second instance even to calls that never overlap.
- Receipts applied with a stale view of the sending time: an `ApplyReceipt` action that saw a sending time where
  the row has none, or the other way round, does nothing. `MetaWebhook` proves that the service's own reads
  never are of that kind, since only sent messages are correlated and the sending time stays.
- Foreign keys that refuse the deletion of a customer with logs: deletion is always possible in the model,
  so every theorem covers it.
- Removal of automations, and the logs it deletes: log properties speak of logs ever created.
- Selection loops of the recurring automations (days since purchase, birthday, cooldown): only their last
  part, `sendMessage`, is modelled.
- Deletion of media objects by retention: the code has none; DELETED is never written.
- QR codes and pairing codes: webhook configuration and QR code are one step that succeeds or fails.
- Serializable transactions of the reservation: the database refuses at least the commits described above, as
  the isolation level promises, and may refuse any other; the import transaction is one step.
- CampaignOverlaps.SecondUpdateIsSafeExactlyWhen: the transactions of two updates take effect one after the
  other; statements of both that interleave could also merge two lists of interests.
- Cryptography, base64 and CPF check digits; parts are byte sequences, so UTF-8 is not modelled.
- Unicode normalisation of aliases in the import: texts arrive without accents, and upper-casing covers ASCII.
- The range limit of ECMA-262 time values.
- Controllers, guards, tokens, throttling, configuration, dashboards, catalogue and company administration.
- QueueService.OutboundQueue.Enqueue: the choice of the channel that is pinned is any answer; only that the
  pin never changes is stated.
- DateParsing.StoredDayIsTheDay: years of at most six digits, as time values have them.
- CustomerImport.NewRowsAreNew: for stored phones in digits with the country code, as all writers leave them.
- CampaignEngine.OneMessagePerCampaignAndCustomer: identifiers are taken to be free of colons and blanks, as
  UUIDs are.
