# Verified models of the backend's row protocols

The backend keeps its promises with small protocols over SQL rows: leases, fencing tokens,
compare-and-set updates and events committed with the state they announce. This project models
those protocols in Dafny and proves what they keep in every run.

- **Outbox relay**: in `OutboxProtocol` any number of relays claim, dispatch, stamp, release and quarantine rows of
  an `OutboxTable`, and may stop anywhere; sends and writes may take effect without being acknowledged.
  `OutboxDrain` is the drain service as code, with every outcome of its statements and sends;
  `OutboxSettlement` says what its passes achieve, and `OutboxRefinement` that they are runs of the protocol;
  `OutboxLimits` says what the lease, the ten attempts and the deduplication window are worth over whole runs.
- **Uploads** (`StoredFiles`, `UploadProtocol`, `UploadStorage`, `UploadOrigins`, `FileCleanup`): the file aggregate,
  confirms racing sweepers and account purges over rows and objects, what went before each confirmation and
  removal, and the two cleanup loops as code.
- **Billing webhook inbox** (`WebhookInbox`), **send-once notifications** (`NotificationLedger`).
- **Organizations** (`Organizations`, `OrganizationProtocol`, `OrganizationAuthority`): membership rules, lifecycle
  events, invitations, and who set them off.
- **Audit listing** (`KeysetPagination`, `CursorCodec`, `AuditWalk`): keyset pages, the cursor text, and a client
  that follows cursors.
- **Entitlement cache** (`EntitlementCache`) and **auth retention** (`AuthRetention`).
- `Ordering` is ORDER BY ... LIMIT; `Common` holds shared types.

A protocol is a `State`, a `Step` for each statement or await, `Enabled`, and `Apply`. A run is a sequence of
states joined by steps (`IsRun`); the theorems quantify over all runs and all positions in them. One SQL
statement, or one explicit transaction, is one step. New ids are fresh and the clock never goes back. A remote
call ends `Acked`, `Unacked` (it took effect but the caller saw an error) or `Lost`. Statements are functions on
whole tables, shared by the protocols and by the classes that run the same code without interference.

Promises of the comments and the documentation that the code does not keep as said, each with a run or state
that shows it and the exact condition under which it holds:

- `src/modules/organizations/infrastructure/prisma-organization.repository.ts:243-247` describes a lock that
  closes the race between two demotions; the code locks only the target's row.
  `Organizations.InterleavedLosses`: of commands that did not see each other, an owner is left exactly when some owner
  is not the target of one that passes; `Organizations.OrphaningIsStale`: only such a command takes the last owner.
- An invitation can be accepted after it expired, because the instant it is checked against is read before the
  transaction: `OrganizationProtocol.AcceptedAfterExpiry`, `OrganizationProtocol.LateAcceptanceExactlyWhen`.
- `src/modules/billing/application/billing-webhook-inbox.service.ts:21-33` speaks of the queue supplying the
  retries; recording a failure clears the token, so a retried job finds no claim
  (`WebhookInbox.RetriedJobsLoseTheClaim`); it runs the handler exactly when the recording itself was lost and
  nothing has ended the claim since (`WebhookInbox.RetryRunsExactlyWhen`).
- `src/platform/messaging/outbox-drain.service.ts:56-59` says one failing row does not cost the rest of its batch;
  that is so exactly when its release does not throw or it comes last (`OutboxSettlement.IsolationIsExact`).
- A notification key goes out a second time once its row is past retention and pruned
  (`NotificationLedger.RedeliveredAfterRetention`, `NotificationLedger.DeliveredAgainExactlyWhenOpen`).
- An object outlives its row exactly when its bytes arrived after its removal
  (`UploadStorage.LateUploadOrphans`, `UploadStorage.OrphanedExactlyWhen`).
- The guard of the owner purge (`src/modules/upload/application/purge-user-files.use-case.ts:41-45`) is to stop a purge
  that makes no progress; it does when one stuck file is older than the rest, and with stuck files of one instant it
  need not (`FileCleanup.FileStore.PurgeUserFiles`, `FileCleanup.TiesNeedNotEnd`).

## Model

| member | source | states |
|---|---|---|
| OutboxTable.PublishAll | src/platform/queue/bullmq-event-publisher.ts:20-42 | publishing succeeds exactly when every event meets its contract; one bad event writes nothing |
| OutboxTable.InsertedRows | src/platform/queue/bullmq-event-publisher.ts:30-40 | existing rows are kept, and each new event id gets one fresh publishable row, with the content of the first event that has the id |
| OutboxTable.KeepMembers | src/platform/messaging/outbox-drain.service.ts:256-273 | each half of the partition holds exactly the claimed rows of its kind |
| OutboxProtocol.StepKeeps | src/platform/messaging/outbox-drain.service.ts:41-250 | every statement, send, stop, prune and delivery keeps the relay invariant |
| OutboxProtocol.RunKeeps | src/platform/messaging/outbox-drain.service.ts:41-250 | the relay invariant holds at every point of every run of any number of relays |
| OutboxProtocol.SettlementIsExclusive | src/platform/messaging/outbox-drain.service.ts:173-250 | a row is never both drained and dead-lettered, and only an unsettled row carries a claim |
| OutboxProtocol.SettledRowsAreFrozen | src/platform/messaging/outbox-drain.service.ts:173-250 | a settled row stays exactly as it is until it is pruned, and its id never comes back |
| OutboxProtocol.SupersededClaimsNeverWrite | src/platform/messaging/outbox-drain.service.ts:196-250 | once a row no longer holds a token, no statement issued under that token ever alters it |
| OutboxProtocol.DrainedMeansDelivered | src/platform/messaging/outbox-drain.service.ts:60-75 | a drained row meets its contract and has had a job with its content enqueued for every subscriber, despite absorbed, lost and half-finished sends |
| OutboxProtocol.NoEventIsLost | src/platform/messaging/outbox-drain.service.ts:97-111 | an inserted event's row is there until a prune removes it, and it had been settled for longer than the retention then |
| OutboxProtocol.OnlyPublishableEventsAreQueued | src/platform/messaging/outbox-drain.service.ts:48-62 | no job carries an event off its contract or goes to a queue that did not subscribe |
| OutboxProtocol.JobsAreSpaced | src/platform/queue/bullmq.service.ts:130-153 | what the deduplication of a send is taken to give, over all relays and restarts: jobs with one key are at least ten minutes apart |
| OutboxProtocol.AttemptsAreBounded | src/platform/messaging/outbox-drain.service.ts:173-236 | attempt_count is the number of claims of the row; no event is claimed or dispatched more than ten times over all relays and crashes |
| OutboxProtocol.AuditIsOncePerEvent | src/modules/audit-log/infrastructure/prisma-audit.repository.ts:17-36 | any number of deliveries leaves at most one audit row per event, describing the event as it was inserted, pruned or not |
| OutboxProtocol.DeliveryRecordsOnce | src/modules/audit-log/infrastructure/listeners/record-integration-event.listener.ts:17-48 | a delivery leaves exactly one audit row for its event |
| OutboxLimits.LeaseExcludesOthers | src/platform/messaging/outbox-drain.service.ts:173-236 | until 120 seconds have passed since its claim, a row changes only by a statement of the relay whose token it carries: no other claim, sweep or prune touches it |
| OutboxLimits.ReclaimedAfterTheLease | src/platform/messaging/outbox-drain.service.ts:173-194 | two claims of one row, in any run and by any relays, with the first not given up in between, are more than 120 seconds apart |
| OutboxLimits.ClaimsExactlyWhen | src/platform/messaging/outbox-drain.service.ts:178-187 | a claim can take a row exactly when it is neither drained nor dead-lettered, has had fewer than ten attempts, and was not claimed in the last 120 seconds |
| OutboxLimits.ClaimWrites | src/platform/messaging/outbox-drain.service.ts:173-194 | column by column, what a claim asks of the rows it takes and writes to them; no other row changes |
| OutboxLimits.SweepWrites | src/platform/messaging/outbox-drain.service.ts:219-236 | the sweep dead-letters exactly the unsettled rows with ten attempts and no running lease, keeping an error already recorded |
| OutboxLimits.TokenWrites | src/platform/messaging/outbox-drain.service.ts:196-250 | stamp, release and quarantine change a row only under the token it carries, and then as stated column by column |
| OutboxLimits.GivenUpAfterTenClaims | src/platform/messaging/outbox-drain.service.ts:173-236 | in every run an event that meets its contract and is dead-lettered has been claimed exactly ten times |
| OutboxLimits.SendsExactlyWhen | src/platform/queue/bullmq.service.ts:130-153 | a send adds a job for the next subscriber in line exactly when it is not lost and the last ten minutes hold no job of that queue and event |
| OutboxDrain.OutboxDrainService.ClaimBatch | src/platform/messaging/outbox-drain.service.ts:173-194 | the claim takes up to a batch of rows, each unsettled, with fewer than ten attempts and no claim of the last 120 seconds; it leaves such a row only with a full batch of older ones; it stamps exactly the rows taken, and returns each once, in any order |
| OutboxDrain.OutboxDrainService.Dispatch | src/platform/queue/bullmq-event-publisher.ts:44-54 | an envelope off its contract sends nothing; otherwise the sends are the subscribers in order up to the first that throws |
| OutboxDrain.OutboxDrainService.DrainOnce | src/platform/messaging/outbox-drain.service.ts:41-78 | each row ends as its own state, membership of the batch, own sends, stamp and release, and whether its turn came, decide; a sweep, claim, quarantine or release that throws, with or without effect, ends the pass with its error; otherwise the count is returned; the sends are exactly those of the turns taken |
| OutboxDrain.RowsLeaveAs | src/platform/messaging/outbox-drain.service.ts:41-78 | column by column, how every row leaves a pass: dead-lettered as exhausted, untouched, or charged one attempt and then drained, dead-lettered for its contract, released with the error, or still claimed |
| OutboxDrain.PassAnswers | src/platform/messaging/outbox-drain.service.ts:54-78 | a pass throws what a release threw, or returns how many rows it dead-lettered for their contract or saw stamped |
| OutboxDrain.PassSparesLeases | src/platform/messaging/outbox-drain.service.ts:173-236 | whatever fails in it, a pass leaves every row alone that was claimed no more than 120 seconds before it sweeps and claims |
| OutboxDrain.SendsReach | src/platform/queue/bullmq-event-publisher.ts:44-54 | the sends of the turns taken go to subscribers of those rows only, and to all of them where every send succeeds |
| OutboxDrain.OutboxDrainService.DrainUntilIdle | src/platform/messaging/outbox-drain.service.ts:84-95 | the loop is repeated passes up to the first that throws or counts less than a batch, at most twenty |
| OutboxDrain.PartitionByContract | src/platform/messaging/outbox-drain.service.ts:256-273 | the loop splits the batch by contract, losing and reordering nothing |
| OutboxSettlement.PoisonIsIsolated | src/platform/messaging/outbox-drain.service.ts:54-78 | however the sends, stamp and release of one event go, every other row ends the pass in the same state, in any order of the batch, unless its release throws |
| OutboxSettlement.AbortStrandsTheRest | src/platform/messaging/outbox-drain.service.ts:60-75 | a release that throws leaves every later publishable row of the batch claimed and charged an attempt |
| OutboxSettlement.IsolationIsExact | src/platform/messaging/outbox-drain.service.ts:54-78 | one row's failure leaves every other row as if it had not happened exactly when its release does not throw or no publishable row follows it |
| OutboxSettlement.FailureFreePass | src/platform/messaging/outbox-drain.service.ts:41-78 | with leases running or run out, but none changing meanwhile, a failure-free pass counts and settles exactly the oldest claimable rows, one batch; of the rest only exhausted rows change, to dead-lettered |
| OutboxSettlement.FailureFreeRun | src/platform/messaging/outbox-drain.service.ts:84-95 | failure-free passes that stop at the first short one settle exactly the oldest min(claimable, passes x batch) rows, drained or dead-lettered by contract, and leave settled rows and running leases alone |
| OutboxSettlement.EveryPassMakesProgress | src/platform/messaging/outbox-drain.service.ts:41-78 | with no lease running, expired ones of crashed relays included, the sum over unsettled rows of (11 - attempts) strictly falls on each pass whose claim takes effect, whatever fails after it |
| OutboxSettlement.EveryRowSettles | src/platform/messaging/outbox-drain.service.ts:41-78 | so every row is drained or dead-lettered within that many such passes, each of which finds the claims of the one before released or their lease run out |
| OutboxRefinement.PassIsRun | src/platform/messaging/outbox-drain.service.ts:41-78 | every pass of the drain service, however its statements and sends end, is a run of the relay protocol to the same table, in which each of its sends has a job in the log and no other job was added |
| OutboxRefinement.LoneRelaySettlesEveryRow | src/platform/messaging/outbox-drain.service.ts:173-236 | from any reachable state whose leases have run out, a lone relay settles every row within the measure |
| OutboxRefinement.RecoveryIsARun | src/platform/messaging/outbox-drain.service.ts:173-236 | those passes extend the run itself, which then ends with every row settled |
| OutboxRefinement.EveryRunCanSettle | src/platform/messaging/outbox-drain.service.ts:173-236 | from every reachable state such passes exist: every run, whatever it lost, extends to one that ends with every row settled |
| Ordering.BatchesAreOne | src/platform/messaging/outbox-drain.service.ts:84-95 | a loop of limited batches that stops when one is short takes exactly the first passes x limit rows of the order |
| StoredFiles.SanitiseFilename | src/modules/upload/domain/stored-file.entity.ts:220-238 | a name is refused exactly when nothing but a directory name is left of it; an accepted one has at most 255 characters, no separator, control or quote, and no space in front |
| StoredFiles.SafeNamesStand | src/modules/upload/domain/stored-file.entity.ts:220-238 | a safe name is stored as it is, whatever directory is put before it |
| StoredFiles.DirectoriesAreNoNames | src/modules/upload/domain/stored-file.entity.ts:220-238 | an empty, `.` or `..` last part is refused, however it is reached |
| StoredFiles.Presign | src/modules/upload/domain/stored-file.entity.ts:43-82 | an upload is accepted exactly when its type is allowed, its size is in range and its name is usable, and starts pending under a safe name |
| StoredFiles.StoredFile.Confirm | src/modules/upload/domain/stored-file.entity.ts:135-193 | a confirm succeeds exactly for a pending file whose bytes have the declared size and the declared, allowed type, and then records what was seen and buffers one event; each refusal has its exact case; a pending mismatch discards with its reason; any other status changes nothing |
| StoredFiles.StoredFile.Discard | src/modules/upload/domain/stored-file.entity.ts:200-213 | only a pending file is discarded, with one event that gives the reason |
| StoredFiles.StoredFile.PullEvents | src/modules/upload/domain/stored-file.entity.ts:215-217 | the buffer is handed over whole and emptied |
| UploadProtocol.RunKeeps | src/modules/upload/application/confirm-upload.use-case.ts:50-126 | the upload invariant holds at every point of every run of confirms, sweeps and purges |
| UploadProtocol.SweepersSpareConfirmedFiles | src/modules/upload/application/expire-stale-uploads.use-case.ts:30-53 | a file a sweeper removes is not confirmed at any point of the run, before or after |
| UploadProtocol.StatusMovesOnce | src/modules/upload/infrastructure/prisma-stored-file.repository.ts:48-60 | between any two points a row keeps its identity and its status changes only from pending |
| UploadProtocol.ConfirmedExactlyOnce | src/modules/upload/application/confirm-upload.use-case.ts:50-102 | a file was ever confirmed exactly when exactly one committed event announces it; never more than one |
| UploadProtocol.ConfirmedIsVerified | src/modules/upload/domain/stored-file.entity.ts:135-193 | every confirmed row has verified size and type equal to the declared ones, and the type is allowed |
| UploadProtocol.EventsDescribeTheirFiles | src/modules/upload/application/confirm-upload.use-case.ts:105-126 | every committed event carries the key, type and size of its file as created, and of its confirmed row while there is one |
| UploadStorage.NoOrphanedObjects | src/modules/upload/application/expire-stale-uploads.use-case.ts:35-50 | unless bytes arrive for a key after its removal, every stored object has a row at every point, including stops between the two deletes |
| UploadStorage.OrphanedExactlyWhen | src/modules/upload/application/purge-user-files.use-case.ts:48-52 | once a row is gone, its object is in storage exactly when bytes arrived for its key after a removal and no removal came since |
| UploadStorage.LateUploadOrphans | src/modules/upload/application/expire-stale-uploads.use-case.ts:35-50 | a run in which bytes of the wrong type are uploaded, inspected, discarded and swept, and the URL, used again while it is good, leaves an object without a row |
| UploadStorage.ConfirmedObjectsStay | src/modules/upload/application/confirm-upload.use-case.ts:61-102 | a confirmed file's object is in storage, unless an owner purge has taken it, however confirms and sweepers race |
| UploadStorage.ExpiredFilesGetNoBytes | src/modules/upload/application/expire-stale-uploads.use-case.ts:30-46 | while no URL outlives the time its upload may stay pending, no bytes arrive for a file once a sweeper has given it up |
| UploadOrigins.ConfirmedWasInspected | src/modules/upload/application/confirm-upload.use-case.ts:50-126 | a file confirmed in any run was asked for by its owner, and its stored object was looked at twice before: the size at the first look and the type at the second are the declared ones, the row's verified columns and what its one event says |
| UploadOrigins.DiscardedForCause | src/modules/upload/application/confirm-upload.use-case.ts:61-102 | a confirm that saves a discard had seen a size or type that is not the declared and allowed one |
| UploadOrigins.RemovedWasChosen | src/modules/upload/application/expire-stale-uploads.use-case.ts:30-53 | whatever a cleaner removes was chosen for cause: a purge's by its owner, a sweep's because it was discarded or pending too long |
| UploadOrigins.UploadsAreSigned | src/modules/upload/application/presign-upload.use-case.ts:29-55 | bytes arrive only under a URL signed for that key within its lifetime, and of the declared length |
| FileCleanup.FileStore.RemoveBatch | src/modules/upload/application/purge-user-files.use-case.ts:48-52 | exactly the batch's objects go, and exactly the rows whose delete takes effect; a statement that throws ends it in the middle of its file |
| FileCleanup.FileStore.PurgeUserFiles | src/modules/upload/application/purge-user-files.use-case.ts:28-54 | for any answers to its query, ties in any order: done means every delete took effect, with the owner's row count and every other owner untouched; the guard stops only at an oldest stuck file; it ends within one pass per file when nothing is stuck, one more when one stuck file is older than the rest; wherever it is, a row is gone only if its object is |
| FileCleanup.TiesNeedNotEnd | src/modules/upload/infrastructure/prisma-stored-file.repository.ts:111-119 | for two stuck files of one instant there are answers to the query under which the guard never fires |
| FileCleanup.FileStore.ExpireStaleUploads | src/modules/upload/application/expire-stale-uploads.use-case.ts:30-53 | it succeeds exactly when no statement it runs throws; then exactly the candidates found go, except those a confirm rescued first; confirmed files and uploads not yet overdue are spared, and a batch below 200 leaves no discarded or overdue one; otherwise the candidates before the failing one are done and that one is left where its statement left it |
| FileCleanup.FileStore.SweepFile | src/modules/upload/application/expire-stale-uploads.use-case.ts:35-50 | a pending candidate goes only if the sweep's own claim on it succeeds, and what each throwing statement leaves |
| WebhookInbox.BillingWebhookInbox.Claim | src/modules/billing/infrastructure/prisma-billing-webhook.repository.ts:14-54 | a claim succeeds exactly on an event that is new, or unprocessed and either failed or claimed more than ten minutes ago, and then holds the row with the new payload; otherwise nothing changes |
| WebhookInbox.BillingWebhookInbox.ApplyClaimed | src/modules/billing/application/billing-webhook-inbox.service.ts:77-105 | claim lost exactly when the token does not hold the row; otherwise the row records how the handler ended on its payload, for every way the two marks can end, and any error is rethrown |
| WebhookInbox.ReceiversGoOn | src/modules/billing/infrastructure/prisma-billing-webhook.repository.ts:14-54 | a first delivery is stored as it came; a redelivery leaves the row to its takeover |
| WebhookInbox.WorkersGoOn | src/modules/billing/application/billing-webhook-inbox.service.ts:77-105 | a handler that returns is followed by the processed mark, one that throws or whose mark fails by the failed mark, and while the token holds the row each writes exactly its columns |
| WebhookInbox.RunKeeps | src/modules/billing/infrastructure/prisma-billing-webhook.repository.ts:14-121 | the inbox invariant holds at every point of every run of receivers, workers and pruners |
| WebhookInbox.ProcessedPayloadWasHandled | src/modules/billing/infrastructure/prisma-billing-webhook.repository.ts:56-86 | a processed row was marked under a token that held it then, by a worker whose handler had been given under that token exactly the payload the row keeps, and had returned |
| WebhookInbox.SupersededWorkersAreFenced | src/modules/billing/infrastructure/prisma-billing-webhook.repository.ts:72-103 | a worker whose token no longer holds the row can mark it neither processed nor failed, ever |
| WebhookInbox.RetriedJobsLoseTheClaim | src/modules/billing/infrastructure/prisma-billing-webhook.repository.ts:88-103 | after a recorded failure, looking the event up under the same token always finds nothing |
| WebhookInbox.ClaimHoldsExactlyWhen | src/modules/billing/infrastructure/prisma-billing-webhook.repository.ts:34-103 | a claim holds its row exactly as long as no takeover of the row and no mark under the claim takes effect |
| WebhookInbox.RetryRunsExactlyWhen | src/modules/billing/application/billing-webhook-inbox.service.ts:77-105 | a retry of a failed job runs the handler, on the same payload, exactly when the failure mark was lost and the claim held then and has not been ended since |
| WebhookInbox.NeverStuck | src/modules/billing/infrastructure/prisma-billing-webhook.repository.ts:14-103 | every unprocessed row is failed or leased, exactly one of the two; a processed row is neither |
| WebhookInbox.RedeliveryClaims | src/modules/billing/infrastructure/prisma-billing-webhook.repository.ts:34-53 | a redelivery takes an unprocessed row exactly when it has failed or its ten-minute lease has run out |
| WebhookInbox.RetakeExactlyWhen | src/modules/billing/infrastructure/prisma-billing-webhook.repository.ts:34-53 | in every run a takeover changes an unprocessed, unfailed row exactly when it is not lost and its receiver's instant is more than ten minutes past the row's claim |
| WebhookInbox.ProcessedRowsAreFrozen | src/modules/billing/infrastructure/prisma-billing-webhook.repository.ts:34-121 | a processed row is never claimed or changed again while it exists |
| WebhookInbox.GoneWasPruned | src/modules/billing/infrastructure/prisma-billing-webhook.repository.ts:105-121 | a processed row that is gone was deleted by a prune which had selected it as processed before the cutoff, unchanged since it was processed |
| WebhookInbox.PruneTakesExactly | src/modules/billing/infrastructure/prisma-billing-webhook.repository.ts:105-121 | a prune deletes exactly the rows it selected |
| NotificationLedger.IdempotentNotificationSender.Send | src/modules/notifications/infrastructure/idempotent-notification-sender.adapter.ts:29-66 | which calls deliver, skip or fail, and which keys stay on record |
| NotificationLedger.SendsAtMostOnce | src/modules/notifications/infrastructure/idempotent-notification-sender.adapter.ts:29-66 | for an unpruned key at most one send returns, over all interleavings, failures and failed releases |
| NotificationLedger.SentTwiceWasPruned | src/modules/notifications/infrastructure/prisma-notification-ledger.adapter.ts:24-40 | in every run a second send of a key takes a prune that had found the key's row older than the retention |
| NotificationLedger.SendsFollowClaims | src/modules/notifications/infrastructure/idempotent-notification-sender.adapter.ts:29-66 | nothing goes out but under a claim of its key that its sender saw acknowledged and has held since |
| NotificationLedger.FailedSendsAreReleased | src/modules/notifications/infrastructure/idempotent-notification-sender.adapter.ts:40-66 | a send that throws is followed by the release of its key, after which anyone can claim it |
| NotificationLedger.ReleaseIsOwn | src/modules/notifications/infrastructure/prisma-notification-ledger.adapter.ts:11-22 | the tokenless release removes only its own sender's claim, and no other sender is using the key |
| NotificationLedger.DeliveredAgainExactlyWhenOpen | src/modules/notifications/infrastructure/prisma-notification-ledger.adapter.ts:11-22 | from any state, with no further prune of the key, it can be delivered exactly when its row is off the ledger or some sender has it in hand |
| NotificationLedger.DeliveryCloses | src/modules/notifications/infrastructure/idempotent-notification-sender.adapter.ts:40-52 | a delivery of an unpruned key leaves it on the ledger and in no hand, so only a prune can let it out again |
| NotificationLedger.RedeliveredAfterRetention | src/modules/notifications/infrastructure/prisma-notification-ledger.adapter.ts:24-40 | a run in which a key, redelivered once its row is past retention and pruned, is delivered twice with no send in flight at the prune |
| Organizations.RoleChangeIsExact | src/modules/organizations/infrastructure/prisma-organization.repository.ts:138-159 | a role change writes exactly the given role to exactly that member, unless they are no member or would cease to be the only owner; the outcome says which |
| Organizations.RemovalIsExact | src/modules/organizations/infrastructure/prisma-organization.repository.ts:161-173 | a removal takes out exactly that member, unless they are no member or the only owner; the outcome says which |
| Organizations.DeletionIsExact | src/platform/auth/better-auth.factory.ts:81-91 | an account deletion is refused exactly when the user owns an organization no one else owns, and otherwise takes out exactly their memberships |
| Organizations.RoleChangeKeepsOwner | src/modules/organizations/infrastructure/prisma-organization.repository.ts:138-159 | a role change leaves an owner in every organization that had one |
| Organizations.RemovalKeepsOwner | src/modules/organizations/infrastructure/prisma-organization.repository.ts:161-173 | a removal leaves an owner in every organization that had one |
| Organizations.DeletionKeepsOwner | src/platform/auth/better-auth.factory.ts:81-91 | an account deletion the guard lets through leaves an owner in every organization that had one |
| Organizations.OwnerLeftExactlyWhen | src/modules/organizations/infrastructure/prisma-organization.repository.ts:248-279 | for demotions, removals and account deletions in any commit order, each checked against any earlier commits, an owner is left exactly when some owner had no command against them let through |
| Organizations.InterleavedLosses | src/modules/organizations/infrastructure/prisma-organization.repository.ts:248-279 | with two or more owners commanded away and no check seeing another's write, every demotion and removal passes, a deletion passes unless it would orphan some organization, and an owner is left exactly when some owner is not the target of one that passes |
| Organizations.OrphaningIsStale | prisma/migrations/20260830000000_init/migration.sql:475-510 | a command, trigger-checked deletions included, that takes the last owner checked before some earlier commit and counted on an owner gone by then |
| Organizations.SerialKeepsOwner | src/platform/auth/better-auth.factory.ts:73-91 | commands that each see every earlier commit never leave an organization without an owner |
| Organizations.ReplayShape | src/modules/organizations/application/change-organization-lifecycle.use-case.ts:39-108 | a log that replays alternates archived and restored from archived; purged is at most once, last and directly after archived |
| OrganizationProtocol.RunKeeps | src/modules/organizations/infrastructure/prisma-organization.repository.ts:98-301 | the organization invariant holds at every point of every run of interleaved commands |
| OrganizationProtocol.EveryOrganizationHasAnOwner | src/modules/organizations/infrastructure/prisma-organization.repository.ts:98-173 | every existing organization has an owner at every point of every run of serial membership commands |
| OrganizationProtocol.EventsReplayToStoredState | src/modules/organizations/application/change-organization-lifecycle.use-case.ts:39-108 | replaying an organization's committed events gives its stored state, under any interleaving |
| OrganizationAuthority.EventsAreTheOwners | src/modules/organizations/application/change-organization-lifecycle.use-case.ts:39-122 | every lifecycle event in every run goes back to a command of that kind given by a user who owned the organization then; a purge, to one given while it was archived |
| OrganizationProtocol.ChangeExactlyWhen | src/modules/organizations/application/change-organization-lifecycle.use-case.ts:72-108 | an archive or restore takes effect, with its event, exactly on an organization in the opposite state |
| OrganizationProtocol.PurgeExactlyWhen | src/modules/organizations/infrastructure/prisma-organization.repository.ts:202-232 | a purge takes effect, with its event, exactly on an archived organization without files or live subscription, and takes its members, invitations and subscription with it |
| OrganizationProtocol.MembersExactlyWhen | src/modules/organizations/infrastructure/prisma-organization.repository.ts:138-173 | each membership step of a run writes exactly what its command asks, unless an organization would be left without an owner |
| OrganizationProtocol.PurgeLeavesNothing | src/modules/organizations/infrastructure/prisma-organization.repository.ts:202-232 | a purge takes effect only on an archived organization with no files and no live subscription; at every later point no member, invitation, file or subscription of it exists and its log ends with the purge |
| OrganizationProtocol.PurgedStaysPurged | src/modules/organizations/infrastructure/prisma-organization.repository.ts:202-232 | an organization, once gone, never comes back |
| OrganizationProtocol.InvitationsAreOneShot | src/modules/organizations/infrastructure/prisma-invitation.repository.ts:48-72 | once accepted or revoked, an invitation is never accepted again |
| OrganizationProtocol.AcceptanceOnlyAdds | src/modules/organizations/application/accept-invitation.use-case.ts:32-74 | an acceptance is dated before expiry and adds at most one member, never an owner, changing no existing role |
| OrganizationProtocol.LoadsExactlyWhen | src/modules/organizations/application/accept-invitation.use-case.ts:32-57 | an acceptance goes on exactly for a pending invitation to that address before its expiry |
| OrganizationProtocol.AcceptsExactlyWhen | src/modules/organizations/infrastructure/prisma-invitation.repository.ts:48-55 | it commits exactly when the invitation is still pending and the user exists, and adds exactly that member with the invited role, or no one |
| OrganizationProtocol.RevokesExactlyWhen | src/modules/organizations/infrastructure/prisma-invitation.repository.ts:66-72 | a revocation removes exactly a pending invitation of that organization |
| OrganizationAuthority.InvitationsAreAsIssued | src/modules/organizations/application/invite-member.use-case.ts:32-58 | every invitation is what was issued under its id, for a role below owner, by an organization that was not archived |
| OrganizationProtocol.LateAcceptanceExactlyWhen | src/modules/organizations/application/accept-invitation.use-case.ts:32-57 | an acceptance commits at or after expiry exactly when the clock reaches the expiry between its load and its commit |
| OrganizationProtocol.AcceptedAfterExpiry | src/modules/organizations/application/accept-invitation.use-case.ts:32-57 | a run in which an invitation that expires at 10 is accepted by a commit at 100 |
| KeysetPagination.PageIs | src/modules/audit-log/application/list-audit-entries.use-case.ts:26-41 | a page is the next rows in order, and hasMore says exactly whether rows are left |
| KeysetPagination.WalkIsDescending | src/modules/audit-log/infrastructure/prisma-audit.repository.ts:38-60 | rows of a walk come out strictly newest to oldest, with none repeated, whatever is written between pages |
| KeysetPagination.WalkIsComplete | src/modules/audit-log/infrastructure/prisma-audit.repository.ts:38-60 | a finished walk returns every row present throughout, exactly once |
| KeysetPagination.FixedWalkIsTheTable | src/modules/audit-log/application/list-audit-entries.use-case.ts:26-41 | over an unchanging table a finished walk is the whole table in order |
| KeysetPagination.FixedWalkTerminates | src/modules/audit-log/application/list-audit-entries.use-case.ts:26-41 | over an unchanging table a walk has room for no more pages than rows allow |
| CursorCodec.Base64UrlRoundTrip | src/shared/pagination/cursor.ts:11-15 | decoding the unpadded base64url of any bytes returns them |
| CursorCodec.DigitsAre | src/shared/pagination/cursor.ts:11-15 | the alphabet is that of section 5 of RFC 4648 |
| CursorCodec.DigitsRead | src/shared/pagination/cursor.ts:14-15 | reading takes exactly that alphabet and the two digits of section 4 that differ |
| CursorCodec.DigitsSpellTheBytes | src/shared/pagination/cursor.ts:11-15 | the digits of any bytes, read as one number to the base 64, are the bytes read to the base 256, shifted by the zero bits that fill up the last digit; their count is that of the unpadded encoding |
| CursorCodec.CursorRoundTrip | src/shared/pagination/cursor.ts:11-31 | decoding an encoded timestamp and UUID returns both, although the timestamp contains colons |
| CursorCodec.SplitIsAtLastColon | src/shared/pagination/cursor.ts:16-21 | the split of timestamp, colon, id gives back both parts when the id has no colon |
| CursorCodec.AcceptedCursorsAreExact | src/shared/pagination/cursor.ts:14-31 | the text of any accepted cursor is exactly the printed form of the decoded timestamp, a colon and the decoded version-7 UUID |
| CursorCodec.AcceptsExactlyWhen | src/shared/pagination/cursor.ts:14-31 | a text is accepted as a position exactly when it is that position printed, with a version-7 UUID |
| CursorCodec.UuidV7Is | src/shared/pagination/cursor.ts:26-28 | what counts as such a UUID, group by group |
| CursorCodec.CursorsAreDistinct | src/shared/pagination/cursor.ts:11-13 | different positions have different cursors |
| AuditWalk.CursorsAreRead | src/shared/pagination/cursor.ts:32-34 | an absent or empty cursor starts from the top; any other is refused exactly when it does not decode |
| AuditWalk.WirePageIsPage | src/modules/audit-log/application/list-audit-entries.use-case.ts:26-41 | a request answers with the page of its decoded key, and its cursor decodes to its last row |
| AuditWalk.WireWalkIsWalk | src/modules/audit-log/application/list-audit-entries.use-case.ts:26-41 | following cursor strings is following the keys |
| AuditWalk.ClientsSeeEveryRowOnce | src/modules/audit-log/infrastructure/prisma-audit.repository.ts:38-60 | a client that follows cursors to the end sees each row present throughout exactly once, newest first |
| EntitlementCache.DefaultEntitlementService.GetFor | src/modules/billing/domain/entitlement.service.ts:44-58 | an entry still good is returned and nothing changes; otherwise the repository's answer is returned and remembered for thirty seconds, and below 10,000 entries nothing else is forgotten |
| EntitlementCache.DefaultEntitlementService.RememberEntry | src/modules/billing/domain/entitlement.service.ts:65-73 | the in-place update is the bounded insertion-ordered update |
| EntitlementCache.RememberKeeps | src/modules/billing/domain/entitlement.service.ts:65-73 | the map stays well formed and bounded, holds the new entry and changes no other entry it keeps |
| EntitlementCache.ForgetsExactly | src/modules/billing/domain/entitlement.service.ts:65-73 | below 10,000 entries nothing is forgotten; at 10,000 exactly the oldest insertion goes, and setting that key puts it back as the newest |
| EntitlementCache.HitsAreRecent | src/modules/billing/domain/entitlement.service.ts:44-58 | every hit returns a value the repository held less than thirty seconds before |
| EntitlementCache.MissesAreCurrent | src/modules/billing/domain/entitlement.service.ts:44-58 | every miss returns a value the repository held during the call |
| EntitlementCache.LooksMissExactlyWhen | src/modules/billing/domain/entitlement.service.ts:44-58 | a lookup asks the repository exactly when no entry of its key is good past that instant |
| EntitlementCache.FinishRemembers | src/modules/billing/domain/entitlement.service.ts:44-58 | a call that ends leaves its answer good until thirty seconds after its lookup |
| EntitlementCache.CacheIsBounded | src/modules/billing/domain/entitlement.service.ts:65-73 | the map never exceeds 10,000 entries, however calls interleave |
| AuthRetention.AuthRetentionService.PruneExpired | src/platform/auth/auth-retention.service.ts:27-49 | each table loses its oldest expired rows, as many as there are up to a batch, ties in any order; a session whose expiry and grace are not both past, and a verification not expired, stays |
| AuthRetention.AuthRetentionService.PruneUntilIdle | src/platform/auth/auth-retention.service.ts:56-72 | one loop serves both tables, yet each loses exactly its oldest expired rows up to twenty batches; a session whose expiry and grace are not both past, and a verification not expired, stays |
| AuthRetention.TwoDeletes | src/platform/auth/auth-retention.service.ts:56-72 | two deletes in a row take what one of both limits could; a short second one leaves nothing expired |
| AuthRetention.PruneIsComplete | src/platform/auth/auth-retention.service.ts:56-72 | a prune below its budget leaves no row before the cutoff |

## Left out

- NestJS modules, controllers, guards, DTOs, problem details, i18n, env schemas, scheduling, logging and metrics: wiring with no hard property.
- S3, SMTP, Redis, BullMQ, Prisma, Better Auth, hashing and HMAC internals: they appear only as steps that take effect, or not, and are acknowledged, or not.
- Zod parsing is a predicate given with the contracts, and the subscriber lists are a given map; row content never changes, so the predicate is evaluated on it at any time.
- Date printing and parsing are a given inverse pair. Node's tolerant base64 decoder is modelled as skipping characters outside the alphabet, and a byte beyond ASCII becomes one placeholder character.
- Ids are naturals (UUID equality and order) and instants are integers in milliseconds.
- SKIP LOCKED: it lets a claim in `OutboxProtocol` take any subset of the claimable rows; the claim token is minted with the claim statement, and the instants of the statements of `OutboxDrain` are parameters.
- The order in which a relay dispatches the rows of its batch: UPDATE ... RETURNING fixes none, so every order is allowed.
- The outbox prune loop's batch limit and its count; a prune step may remove any settled rows past their retention.
- Concurrent last-owner safety over whole runs: membership commands are serial steps there; `Organizations.InterleavedLosses` gives the exact condition for commands checked together.
- Exactly-once execution of webhook handlers: a slow or crashed handler may run again.
- Webhook signature checks, the received-at column and the truncation of long error texts.
- Listing and counting queries over files; file names are cut at 255 characters, not UTF-16 units.
- The instant and the lookup of an invitation's acceptance are one step, as are the check and the write of each serial membership command.
- Email normalisation, slugs and names of organizations, and who may issue which membership command.
- Audit columns beyond id, instant and action; the listing filters are taken as already applied to the table, and the limit is at least one as `src/modules/audit-log/http/dto/list-audit-logs.request.dto.ts:15-20` requires.
- Paging over user profiles, where rows without an identity are dropped before hasMore is computed.
