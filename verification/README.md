# Comsat: leases, outbox, search merge and schema walker

Comsat searches many sources at once, keeps watches that repeat a search on an interval, and queues a
webhook delivery for what a watch had not seen before. This project models the four parts of it whose
correctness does not show in any single function, and proves what they promise.

**The watch protocol, implemented twice.** Workers claim a due watch under a lease, start an idempotent
run, search, and complete the run: records and observations are upserted, exactly the new ones are queued
as one delivery, the run is closed, the watch is rescheduled. SQLite does this record by record in a
transaction that can roll back; D1 does it as a fixed batch of set-oriented statements that cannot.
`StoreModel` has the tables, keyed as the migrations declare them, and the statements both stores share;
`Effects` says once more, column by column and without naming them, what the operations leave.
`SqliteStore` and `D1Store` are the two stores as classes whose methods update the tables in place;
`SqliteCompletion` and `D1Completion` are the specifications of their completions, and `CompletionEffects`
proves that both have the effect so described. `BulkJson` is the JSON
text in which D1 receives its records, `WebhookBody` the text of a webhook request, and `JsonText` what
both are written with. `CompletionRefinement` relates the two, `Protocol` runs any
interleaving of operations on either store, and `CommitSafety`, `Leases`, `NativeRuns`, `CloudRuns`,
`Outbox`, `Fairness` and `DeliveryProtocol` prove what holds over all such runs. `Drivers` has the
programs that use the stores.

**The search driver.** `SearchDriver` is the polled merge with its queues, cursor, deduplication and early
stop; `RoundRobin` is the reference without queues or workers, and `MergeLog` the law its log obeys, told
without rounds: which sources run at each service, which is served, and which event it hands over. `Dedupe`, `Plan`, `SourceWorker` and
`Metrics` are its parts. `SearchToStore` joins the driver to the stores, and `CloudSearch` follows one
cloud search from the sources' budgets to the D1 parameter.

**The JSON Schema consistency walker.** `SchemaWalker` is the walk and its specification over paths, whose
steps are defined on members and elements alone;
`Json` has JSON Pointers (section 4 of RFC 6901); the scoping of anchors is that of section 8.2 of the
JSON Schema Core specification, draft 2020-12.

**Tenant rotation.** `TenantRotation` is the modular window over the tenants of one scheduled pass.

`Wrappers`, `Ordering`, `Decimal` and `Records` are shared vocabulary.

## How it is modelled

- A run is a sequence of store operations, each atomic. Completions and settlements read a clock that does
  not go back as they run; claims and starts may carry any earlier reading, as a scheduled pass uses one for
  all its claims. Concurrency is the choice of the sequence. A completion in it is a SQLite transaction or
  a D1 batch with the rows its engine picked, so results over runs hold on both stores.
- A statement's `WHERE` and `EXISTS` gates are predicates on the tables. `ORDER BY ... LIMIT 1` is the least
  row of a total order that is proved to have one.
- Where D1 may pick any of several rows of one identity, the pick is a parameter and results hold for
  every legal pick; each column of the record update picks for itself.
- Ids, tokens, tenants and intervals are validated as the requests validate them. The outcome of the
  checks on JSON documents is a field of the request.
- A source worker in the driver has a list of events it will send; how many it sends per turn and when it
  finishes are unconstrained choices. Channel capacities only restrict these choices.
- Outcomes of searches, responses of webhooks, clock readings, delivery ids and lease tokens are inputs.
  Freshness of tokens (`CommitSafety.FreshClaims`) is a hypothesis where it is needed and absent elsewhere;
  the native driver, which reuses one token, is proved separately through its run ids. The results about
  sends suppose that no delivery id is ever queued twice (`DeliveryProtocol.Admissible`), which follows when
  no watch is deleted (`UndeletedIsAdmissible`).

## Results that are conditions

- The stores agree on a completion exactly when both refuse it as invalid, or its records fit into one D1
  parameter and, should the gate be open, records that share an identity are equal
  (`CompletionRefinement.AgreementIsExact`, `Protocol.ReachableStoresAgree`). `OversizeDiverges` and
  `InconsistentRecordsDiverge` say what happens otherwise. What a search returns is always consistent
  (`SearchToStore.SearchedCompletionsAgree`) but need not fit: five sources that each keep the cloud's
  240 KiB budget return together more than D1 takes (`CloudSearch.CloudSearchesMayNotFit`).
- A native turn within its lease commits exactly when its run id is at most 160 bytes long
  (`NativeRuns.ClaimedWatchCommits`, `Drivers.RunDueWatchOnce`). Watch ids of more than 156 bytes are accepted
  but never commit: such a watch stays due (`OverlongWatchIsAccepted`, `OverlongWatchIsStuck`). The same bound
  decides for a queued message (`CloudRuns.ClaimedMessageCommits`).
- A commit keeps the outbox partition exactly when nothing was new or it carries an unused delivery id
  (`Outbox.CommitKeepsPartitionExactly`). Without a delivery configured the observations go unannounced.
  With one configured and an id function that tells runs apart the partition always holds
  (`Outbox.InjectiveIdsKeepPartition`).
- Sends per delivery are bounded by three, while the attempts counter has no bound in runs from the empty
  database (`DeliveryProtocol.SendsAreBounded`, `AttemptsAreUnbounded`).
- A delivery is sent only if its body is at most 1 MiB long. A longer one is accepted and queued but never
  sent, and its third recorded result leaves it failed (`OverlongIsNeverSent`, `OverlongEndsFailed`).
- A waiting watch is passed over at most once per watch ahead of it, watch created and expired lease retaken,
  plus once per claim with so early a reading that it takes the watch's own expired lease for live; the last
  kind is absent for an unleased watch and for claims that read the clock as they run
  (`Fairness.BypassIsBounded`, `NeverOverlooked`).
- A worker's budgets hold for every source exactly when they are not whole machine words, up to the two
  degenerate cases stated (`SourceWorker.RecordBudgetIsExact`, `ByteBudgetIsExact`): the counters saturate,
  so a budget of the largest word is never exceeded.
- The last statement of the D1 batch has a gate of its own, which a run closed in the very same second
  under a live lease would pass; `Protocol.NoRunClosedUnderLiveLease` shows no reachable state has one.
- A refused item may be followed by others that replace the reason; the reported failure is the one of
  `SourceWorker.Reason`, in which bytes take precedence over count and count over malformed data.

## Model

| member | source | states |
|---|---|---|
| StoreModel.DueWatch | crates/comsat-store-sqlite/src/sql.rs:9-17 | the due query answers with the one claimable watch that comes first by due time, creation and id, and with nothing only if no watch is claimable |
| StoreModel.NextDelivery | crates/comsat-store-sqlite/src/sql.rs:38-55 | the same for the delivery a claim takes |
| StoreModel.FirstDueUnique | crates/comsat-cloud/src/d1_sql.rs:24-38 | the order leaves no tie, so both stores claim the same watch |
| StoreModel.FirstSendableUnique | crates/comsat-cloud/src/d1_sql.rs:143-153 | the order leaves no tie among deliveries either |
| Effects.TokensUseTheAlphabet | crates/comsat-store/src/model.rs:178-184 | tenants of 1 to 128 and ids of 1 to 160 characters pass, written in ASCII letters, digits and four marks |
| Effects.RequestsAreChecked | crates/comsat-store/src/model.rs:234-306 | each request is valid exactly when all its tokens are, its interval lies between a second and a year, and its documents are |
| Effects.CreationIsExact | crates/comsat-store/src/model.rs:205-233 | a creation leaves one row with every column as asked for, and nothing else can be its result |
| Effects.DeletionIsExact | crates/comsat-store-sqlite/src/lib.rs:148-158 | a deletion leaves exactly what does not belong to the watch, and every record |
| Effects.ClaimIsExact | crates/comsat-store-sqlite/src/sql.rs:9-24 | a claim leases the earliest enabled, due and unleased watch or, only if there is none, does nothing; no other answer has this effect |
| Effects.StartIsExact | crates/comsat-store-sqlite/src/sql.rs:26-36 | a start adds one open run with the columns asked for exactly under a live lease and an unused key |
| Effects.DeliveryClaimIsExact | crates/comsat-store-sqlite/src/sql.rs:38-55 | a delivery claim leases the earliest pending or abandoned delivery and counts one attempt, or finds none; no other answer has this effect |
| Effects.SettlementIsExact | crates/comsat-store-sqlite/src/deliveries.rs:189-201 | a settlement under the live lease of its owner ends the delivery on success or at the third attempt, and else sends it back for 300 seconds |
| SqliteStore.Store.Create | crates/comsat-store-sqlite/src/lib.rs:106-129 | an invalid id, interval or document or a taken key changes nothing; otherwise the one row appears as asked for, unleased, due at its first due time or else at its creation |
| SqliteStore.Store.Delete | crates/comsat-store-sqlite/src/lib.rs:148-158 | refuses an invalid key; else removes the watch and, by cascade, its runs, observations and deliveries, and nothing else |
| SqliteStore.Store.ClaimDue | crates/comsat-store-sqlite/src/lib.rs:160-198 | select and guarded update lease the earliest enabled, due and unleased watch of the tenant by due time, creation and id, and nothing else; the returned row is the one selected, before the lease |
| SqliteStore.Store.Start | crates/comsat-store-sqlite/src/lib.rs:200-224 | refuses invalid ids; adds one open run exactly under a live lease and an unused idempotency key; answers with the run of that key or a conflict |
| SqliteStore.Store.UpsertOneRecord | crates/comsat-store-sqlite/src/ops.rs:73-100 | replaces the content, keeps the first sighting, and reports one only for a new key |
| SqliteStore.Store.UpsertOneObservation | crates/comsat-store-sqlite/src/ops.rs:102-121 | keeps the first sighting and reports one only for a new key |
| SqliteStore.Store.QueueRunDelivery | crates/comsat-store-sqlite/src/deliveries.rs:92-126 | queues one delivery unless nothing is new, none is configured, or the id is taken: pending and untried, for the target asked for, sendable from the end of the run, with the new records as payload |
| SqliteStore.Store.CompleteRun | crates/comsat-store-sqlite/src/lib.rs:226-265 | succeeds exactly for a valid request whose owner holds a live lease and the open run; then the run is failed or succeeded as an error is or is not reported, the watch free and due an interval later, what came in stored and observed, what was unseen queued, and the counts right; otherwise no table changes |
| SqliteStore.Store.ClaimPending | crates/comsat-store-sqlite/src/deliveries.rs:12-34 | leases exactly the earliest sendable delivery of the tenant and counts the attempt |
| D1Store.Store.ClaimDue | crates/comsat-cloud/src/d1_store.rs:129-146 | the single update claims the same earliest watch as SQLite; the returned row is the updated one |
| D1Store.Store.Start | crates/comsat-cloud/src/d1_store.rs:148-163 | the same start as on SQLite, as one step |
| D1Store.Store.InsertRecords | crates/comsat-cloud/src/d1_sql.rs:200-227 | behind the gate, adds exactly the record keys not yet held; its change count is their number |
| D1Store.Store.InsertRunDelivery | crates/comsat-cloud/src/d1_sql.rs:81-135 | behind the gate and under an unused id, queues the unseen records: pending and untried, for the target asked for, sendable from the end of the run |
| D1Store.Store.InsertObservations | crates/comsat-cloud/src/d1_sql.rs:262-280 | behind the gate, adds exactly the observation keys not yet held; its change count is their number |
| D1Store.Store.RescheduleWatch | crates/comsat-cloud/src/d1_sql.rs:309-321 | reschedules the one watch behind its own gate and reports one change, else none |
| D1Store.Store.RunBatch | crates/comsat-cloud/src/d1_store.rs:170-174 | the statements in batch order leave the tables and counts of the batch specification; when it succeeds the gate was open and the commit has its whole effect |
| D1Store.Store.CompleteRun | crates/comsat-cloud/src/d1_store.rs:165-174 | validation and the length of the records text come before any statement; a success has the whole effect of a commit, with the status the error calls for; whenever the stores agree, the effect is that of the SQLite transaction |
| D1Store.Store.ClaimPending | crates/comsat-cloud/src/d1_store.rs:186-200 | the same delivery claim as on SQLite |
| CompletionEffects.TransactionCompletes | crates/comsat-store-sqlite/src/lib.rs:226-265 | the record-by-record transaction closes run and watch, stores and observes what came in, queues one record for each unseen identity, and counts the identities the tables did not hold |
| CompletionEffects.BatchCompletes | crates/comsat-cloud/src/d1_sql.rs:81-321 | the batch of set-oriented statements has the same effect whatever rows the engine picks |
| CompletionRefinement.LoopKeys | crates/comsat-store-sqlite/src/lib.rs:239-246 | after any number of records the loop has added exactly the keys it touched |
| CompletionRefinement.LoopCounts | crates/comsat-store-sqlite/src/lib.rs:236-242 | the loop's counters are the numbers of distinct keys the tables did not hold before |
| CompletionRefinement.LoopRecordRow | crates/comsat-store-sqlite/src/ops.rs:73-100 | a touched record ends with its last content and its original first sighting; others are untouched |
| CompletionRefinement.LoopObservationRow | crates/comsat-store-sqlite/src/ops.rs:102-121 | a touched observation ends with its original first sighting; others are untouched |
| CompletionRefinement.PayloadsAgree | crates/comsat-cloud/src/d1_sql.rs:81-135 | both outboxes queue the same set of records, or both queue nothing |
| CompletionRefinement.FailedGateIsExact | crates/comsat-cloud/src/d1_store.rs:316-335 | with the gate shut the batch answers with a conflict and leaves the tables alone exactly when the last statement's gate is shut too |
| CompletionRefinement.BatchRefinesTransaction | crates/comsat-cloud/src/d1_store.rs:249-314 | with the gate open and consistent records, the batch leaves the same five tables and reports the same outcome as the transaction |
| CompletionRefinement.InconsistentRecordsDiverge | crates/comsat-cloud/src/d1_sql.rs:243-250 | for any records with equal identities and different content there is a legal pick that leaves other tables than SQLite |
| CompletionRefinement.UpdateIsPick | crates/comsat-cloud/src/d1_sql.rs:243-250 | with consistent records the per-column subqueries can only assemble the one record there is |
| BulkJson.LongRecordsDoNotFit | crates/comsat-cloud/src/d1_values.rs:35-48 | records whose texts together exceed 1048576 characters exceed the limit on the records text |
| BulkJson.TextTellsRecords | crates/comsat-cloud/src/d1_values.rs:35-48 | the records text loses nothing: two lists written alike agree in every column, in the same order |
| JsonText.EscapedCharIsRead | crates/comsat-cloud/src/d1_values.rs:41 | every escaped character is read back as itself, whatever follows |
| CompletionRefinement.OversizeDiverges | crates/comsat-cloud/src/d1_store.rs:167 | on records too long for one parameter D1 changes nothing and reports a validation error, where SQLite commits or reports a conflict |
| CompletionRefinement.TablesAgreeExactly | crates/comsat-cloud/src/d1_sql.rs:193-321 | the exact condition under which both stores leave the same tables under every pick |
| CompletionRefinement.AgreementIsExact | crates/comsat-store-sqlite/src/lib.rs:226-265 | the stores have the same effect under every pick if and only if the request is invalid, or its records fit and, with an open gate, are consistent |
| Protocol.CommitEffect | crates/comsat-cloud/src/d1_sql.rs:81-321 | a commit has one shape on both stores: one run closed, one watch rescheduled, exactly the named keys added, exactly the new identities queued |
| Protocol.CommitDoes | crates/comsat-cloud/src/d1_values.rs:83-136 | a commit on either store has this effect column by column, with the run failed exactly when an error is reported and the delivery for the target asked for |
| Protocol.CommitsOrNothing | crates/comsat-cloud/src/d1_sql.rs:193-321 | in sound tables a completion on either store commits or changes nothing |
| Protocol.SoundRun | migrations/0001_initial.sql:11-99 | in every database reachable on either store foreign and unique keys hold, keys are valid, leased watches are due, and a closed run ended before its watch is due again |
| Protocol.NoRunClosedUnderLiveLease | crates/comsat-cloud/src/d1_sql.rs:309-321 | the gate of the rescheduling statement alone never opens in a reachable state |
| Protocol.BatchIsAllOrNothing | crates/comsat-cloud/src/d1_store.rs:279-347 | after any run on either store the batch without rollback changes nothing and reports an error, or changes exactly one run and one watch and succeeds |
| Protocol.ReachableStoresAgree | crates/comsat-cloud/src/d1_sql.rs:193-321 | the exact agreement condition in every state reachable on either store |
| Protocol.RunsAgree | crates/comsat-cloud/src/d1_store.rs:165-174 | a whole run whose commits carry consistent records that fit leaves the same database on D1 as on SQLite, whatever rows the engine picks |
| CommitSafety.LeaseStep | crates/comsat-cloud/src/d1_sql.rs:24-38 | an operation gives a watch the lease it had, none, or the claiming operation's own |
| CommitSafety.ReclaimSpends | crates/comsat-cloud/src/d1_sql.rs:29-37 | retaking an expired lease makes the previous token useless for every watch |
| CommitSafety.CommitSpends | crates/comsat-store-sqlite/src/ops.rs:143-156 | a commit makes its own token useless |
| CommitSafety.ChangesNeedTheLease | crates/comsat-cloud/src/d1_sql.rs:43-53 | on either store a start or completion that changes anything runs under its owner's live lease |
| CommitSafety.SupersededOwnerIsFenced | crates/comsat-cloud/src/d1_sql.rs:43-53 | after its token is spent, nothing a worker starts or completes on either store changes any table, whatever happens in between |
| CommitSafety.MessageCommitsOnce | crates/comsat-cloud/src/runtime_watch.rs:93-130 | on either store no two commits of a run carry the same token, so a queue message commits at most once however often it is delivered |
| CommitSafety.DueNeverMovesBack | crates/comsat-store-sqlite/src/ops.rs:143-156 | a watch's due time never decreases while the watch exists |
| CommitSafety.DueStep | crates/comsat-store-sqlite/src/ops.rs:143-156 | each commit moves its watch's due time strictly forward |
| CommitSafety.SlotCommitsOnce | crates/comsat-cloud/src/d1_sql.rs:299-321 | on either store each watch and due time commits at most once, with no assumption about tokens or about the readings of claims |
| CommitSafety.RedeliveryFindsClosedRun | crates/comsat-cloud/src/runtime_watch.rs:103-108 | redelivered after its commit, a message changes nothing and finds a closed run or an error |
| Leases.RunStep | crates/comsat-cloud/src/d1_sql.rs:43-53 | a run row is as it was, closed by its own commit, or just started under a live lease |
| Leases.LiveLeaseStands | crates/comsat-cloud/src/d1_sql.rs:24-38 | while a lease is live its watch row and the runs of the watch stay the same under all operations but its owner's completion and a deletion |
| Leases.OnlyCommitsReschedule | crates/comsat-cloud/src/d1_sql.rs:309-321 | the due time of a watch changes by its own commits only |
| CloudRuns.LiveLeaseStarts | crates/comsat-cloud/src/runtime_watch.rs:103-108 | under a live lease a message's start answers with its own open run, first delivery or not |
| CloudRuns.ReloadFindsRun | crates/comsat-cloud/src/d1_store.rs:148-163 | the reload of a start finds the run its insert left or found open, whatever other workers do between the two statements while the lease is live |
| CloudRuns.ClaimedMessageCommits | crates/comsat-cloud/src/runtime_watch.rs:93-130 | after any history and amid any other workers, also between the insert and the reload of its start, a queued message starts its own run and passes the completion gate within its lease, exactly unless its run id exceeds 160 bytes |
| NativeRuns.RunIdInjective | crates/comsat-app/src/app.rs:145-150 | within a watch the run id determines owner and due time, even for owners containing colons |
| NativeRuns.NativeSoundRun | crates/comsat-app/src/app.rs:104-170 | in every native run, a closed run's id names a due time before the current one |
| NativeRuns.HeldLeaseStartsOpenRun | crates/comsat-app/src/app.rs:152-170 | a start under a live lease for the current due time answers with its own running run, also when an earlier try left one, and is refused exactly when its id is too long |
| NativeRuns.StartIsValid | crates/comsat-store/src/model.rs:250-258 | given valid parts a native start is refused exactly when its run id exceeds 160 bytes, and the id is at least four bytes longer than the watch id |
| NativeRuns.ClaimedWatchCommits | crates/comsat-app/src/app.rs:104-128 | after any history and with any other operations between its steps, a claim is followed by an open run and a completion within the lease passes the gate, exactly unless the run id is too long |
| NativeRuns.OverlongWatchNeverCommits | crates/comsat-app/src/app.rs:145-150 | a watch id of more than 156 bytes never has a run in any native history, so no completion of it commits |
| NativeRuns.OverlongWatchIsStuck | crates/comsat-app/src/app.rs:104-128 | such a watch keeps its due time over every native run that does not delete it |
| NativeRuns.OverlongWatchIsAccepted | crates/comsat-store/src/model.rs:205-213 | creating a watch with a 160 byte id succeeds |
| Outbox.CommitCovers | crates/comsat-store-sqlite/src/lib.rs:236-247 | after a commit every observation of the watch is announced by some delivery |
| Outbox.CommitStaysDisjoint | crates/comsat-store-sqlite/src/deliveries.rs:92-126 | after a commit no identity is announced twice |
| Outbox.CommitKeepsPartitionExactly | crates/comsat-cloud/src/d1_sql.rs:81-135 | a commit on either store keeps the partition if and only if it queues what it newly observed |
| Outbox.DeletionEmptiesOutbox | migrations/0001_initial.sql:66-99 | the cascades of a deletion leave neither observation nor delivery of the watch |
| Outbox.OutboxPartition | crates/comsat-store-sqlite/src/lib.rs:236-247 | over whole runs the observed identities are exactly the disjoint union of the payloads' identities |
| Outbox.NamedQueues | crates/comsat-app/src/notifications.rs:35-46 | a run still open was not announced, so a commit under the delivery id its run determines always finds the id unused |
| Outbox.InjectiveIdsKeepPartition | crates/comsat-app/src/notifications.rs:93-99 | in every reachable state the partition holds, from injectivity of the delivery ids alone, through deletions and re-creations |
| Outbox.RunsAreAnnouncedOnce | crates/comsat-store-sqlite/src/deliveries.rs:103-125 | in every reachable state each delivery names one closed run, carries that run's end as its time and at least one record, and no run has two deliveries |
| Fairness.BypassIsBounded | crates/comsat-store-sqlite/src/sql.rs:9-24 | while a due watch waits, the tenant's claims number at most the watches ahead of it, plus one per lease retaken, per watch created meanwhile, and per claim whose early reading takes the watch's expired lease for live |
| Fairness.NeverOverlooked | crates/comsat-cloud/src/runtime_watch.rs:34-91 | no claim overlooks a watch that is unleased, whatever its reading, and none that reads the clock as it runs overlooks any |
| Fairness.WaitingWatchFeedsClaims | crates/comsat-store-sqlite/src/sql.rs:9-17 | every valid claim of the tenant at a time when the watch is claimable takes a watch, this one or one ahead of it |
| DeliveryProtocol.TerminalIsAbsorbing | crates/comsat-store-sqlite/src/deliveries.rs:189-201 | a succeeded or failed delivery never changes until its watch is deleted |
| DeliveryProtocol.NewTicket | crates/comsat-store-sqlite/src/sql.rs:38-55 | a claim's attempt number exceeds that of every earlier claim of the delivery, and its time is past their quiet period |
| DeliveryProtocol.InvariantHolds | crates/comsat-app/src/notifications.rs:55-91 | the invariant on rows, claims, sends and results holds over every interleaving of workers and crashes |
| DeliveryProtocol.SendsAreBounded | crates/comsat-app/src/notifications.rs:73-79 | at most three requests are ever made for one delivery |
| DeliveryProtocol.UndeletedIsAdmissible | crates/comsat-store-sqlite/src/deliveries.rs:103-125 | as long as no watch is deleted no delivery id is queued twice |
| DeliveryProtocol.SendsAreBoundedUndeleted | crates/comsat-app/src/notifications.rs:73-79 | without deletions the bound of three requests needs no hypothesis on delivery ids |
| DeliveryProtocol.OverlongIsNeverSent | crates/comsat-app/src/notifications.rs:122-137 | in no run is a request made for a delivery whose body exceeds 1 MiB |
| DeliveryProtocol.OverlongEndsFailed | crates/comsat-app/src/notifications.rs:55-91 | such a delivery never succeeds, and its third recorded result leaves it failed |
| DeliveryProtocol.MessageIsKept | crates/comsat-store-sqlite/src/deliveries.rs:189-201 | over any operations a delivery keeps its target, payload, run and creation until its watch is deleted |
| DeliveryProtocol.QueuedIsSent | crates/comsat-app/src/notifications.rs:55-79 | from the commit on a new delivery can be claimed, and whatever happens in between, its first claim hands out a ticket that a worker configured for the target the commit asked for sends exactly if the body is within the limit |
| DeliveryProtocol.ResultsAreBounded | crates/comsat-store/src/model.rs:8 | at most three results are ever recorded, and the third is final |
| DeliveryProtocol.LifecycleHolds | crates/comsat-cloud/src/d1_sql.rs:137-173 | over any operations in any order pending means no lease and fewer than three attempts, delivering holds exactly with a lease, succeeded exactly with a delivery time |
| DeliveryProtocol.ClaimsAreSpaced | crates/comsat-store-sqlite/src/sql.rs:49-55 | two claims of one delivery are a lease length apart, or the retry delay if that is shorter |
| DeliveryProtocol.RetryWaits | crates/comsat-store-sqlite/src/deliveries.rs:162-167 | after a recorded failure, whatever happens in between, the next claim comes at least 300 seconds later and takes the next attempt number; at the limit there is none |
| DeliveryProtocol.CrashesGrowAttempts | crates/comsat-store-sqlite/src/sql.rs:39-44 | for every n some run of crashed claims raises the attempts counter of a sendable delivery by n |
| DeliveryProtocol.AttemptsAreUnbounded | crates/comsat-store-sqlite/src/sql.rs:39-44 | for every n a run from the empty database, by a creation, a claim, a start, a completion and n crashed claims, leaves a delivery with n attempts |
| Drivers.EnqueueDueWatches | crates/comsat-cloud/src/runtime_watch.rs:34-64 | claims at most the limit, each a distinct watch of the tenant that was claimable and is leased under its own token, and queues their rows in order up to the first message the queue refuses, whose watch stays leased; stopping early without an error means nothing is claimable |
| Drivers.EnqueueForTenants | crates/comsat-cloud/src/runtime_watch.rs:66-91 | at most the limit is claimed with at most twice as many claim calls, only formerly claimable watches of the tenants scheduled at this reading of the clock, and all are queued but one whose message is refused, which ends the pass; falling short without an error means no scheduled tenant has anything claimable left |
| Drivers.RunClaimedWatch | crates/comsat-cloud/src/runtime_watch.rs:93-130 | commits if and only if the ids are valid, the lease outlives the search, no earlier delivery committed and the records fit; then the run failed exactly if the search did, its records are stored and observed and the unseen ones queued; acknowledges only a closed run; keeps the database sound |
| Drivers.RunDueWatchOnce | crates/comsat-app/src/app.rs:104-199 | a turn commits and reschedules the first due watch if and only if its run id fits and it ends within the lease, and then what the search found is stored, observed and queued; otherwise the watch stays leased and due; it idles exactly when nothing is due |
| Drivers.SendDelivery | crates/comsat-app/src/notifications.rs:101-137 | the request is made exactly within the retry limit, to the configured destination and with a body of at most 1 MiB; success is exactly an accepted request |
| Drivers.DeliverPendingWebhook | crates/comsat-app/src/notifications.rs:55-91 | sends if and only if the next delivery in line has attempts left, is for the configured destination and has a body of at most 1 MiB; within the lease that delivery's success, retry or failure is recorded |
| WebhookBody.BodyHasBytes | crates/comsat-app/src/notifications.rs:122-133 | in whatever order a payload lists its records, the text of the body has the length the limit is decided by |
| WebhookBody.TextTellsRecord | crates/comsat-app/src/notifications.rs:122-133 | the text of a record in a body loses nothing: records written alike agree in every column |
| WebhookBody.FitsIsExact | crates/comsat-app/src/notifications.rs:127-133 | a payload fits exactly when its body, in any order of records, is at most 1048576 bytes long |
| WebhookBody.Measure | crates/comsat-app/src/notifications.rs:129-133 | adding up the parts gives that length |
| Dedupe.DedupeSet.Insert | crates/comsat-engine/src/dedupe.rs:11-20 | keeps a record exactly when no key was seen, and a dropped record leaves no key behind |
| Dedupe.KeptIsDisjoint | crates/comsat-engine/src/dedupe.rs:11-34 | kept records have pairwise disjoint keys |
| Dedupe.DroppedIffShared | crates/comsat-engine/src/dedupe.rs:12-16 | a record is dropped if and only if it shares a key with a record kept earlier |
| Dedupe.KeptIsIdempotent | crates/comsat-engine/src/dedupe.rs:11-20 | deduplicating twice changes nothing more |
| Dedupe.EncodeInjective | crates/comsat-types/src/identity.rs:15-31 | because source ids contain no colon, the key strings determine what they mean |
| Dedupe.CollideIffShareMeaning | crates/comsat-engine/src/dedupe.rs:22-34 | two records collide exactly when they share an identity, a url or a native id |
| Dedupe.CollideIffSame | crates/comsat-engine/src/dedupe.rs:22-34 | two records collide exactly when they have source and id, or url, or source and one of the two native ids in common |
| Dedupe.KeptIsGreedy | crates/comsat-engine/src/dedupe.rs:11-20 | a record is dropped if and only if a record kept before it is the same thing in this sense |
| Dedupe.KeptAreDistinct | crates/comsat-engine/src/dedupe.rs:22-34 | kept records differ pairwise in identity, in url, and within a source in native ids |
| Plan.PlanMeans | crates/comsat-engine/src/plan.rs:33-46 | the plan runs each selected searchable source once in id order and reports each unknown id once |
| Plan.PlanIsChosen | crates/comsat-engine/src/plan.rs:84-129 | the plan holds exactly the selected ids whose last catalog entry is searchable and reports exactly those without an entry, both ascending |
| Plan.PlanDependsOnTheSet | crates/comsat-engine/src/plan.rs:100-129 | order and repetition of selected ids do not matter |
| RoundRobin.RefillKeepsOrder | crates/comsat-engine/src/merge.rs:162-181 | starting sources earlier or later does not change the order of events |
| RoundRobin.StrictCutsLenient | crates/comsat-engine/src/merge.rs:194-208 | strict output is the lenient output cut right after its first failure |
| RoundRobin.EmissionIsGreedy | crates/comsat-engine/src/merge.rs:183-193 | the records emitted are the greedy deduplication of all records in merge order |
| RoundRobin.RoundRobinIsFair | crates/comsat-engine/src/merge.rs:253-301 | over any stretch in which two sources both run, through removals and refills, the events taken from them differ by at most one |
| RoundRobin.ServicesAreFair | crates/comsat-engine/src/merge.rs:253-301 | the same for every stretch of a log of services in which both sources are listed as running |
| RoundRobin.ActiveIsBounded | crates/comsat-engine/src/merge.rs:162-166 | never more than max_active sources run |
| MergeLog.PlanIsFollowed | crates/comsat-engine/src/merge.rs:162-301 | at each service exactly the first planned sources that have not ended run, as many as the bound allows, in the order of their ids; the place moves on by one after an event and stays after a removal; the event is the next one of the source at that place |
| MergeLog.StartsAscend | crates/comsat-engine/src/merge.rs:162-181 | a source that starts comes after all that ran before it in the order of ids |
| MergeLog.FirstRoundInOrder | crates/comsat-engine/src/merge.rs:253-301 | if all planned sources may run at once and each has an event, the first services take one from each in the order of ids |
| MergeLog.OrderIsLogged | crates/comsat-engine/src/merge.rs:253-267 | the order of events is what the services take, and then what is left |
| SearchDriver.SearchDriver.StartReadySources | crates/comsat-engine/src/merge.rs:162-181 | starting sources refills the reference round and nothing else |
| SearchDriver.SearchDriver.MapEvent | crates/comsat-engine/src/merge.rs:183-208 | counts every consumed record once, for its source, as emitted or deduplicated; a failure in strict mode stops everything |
| SearchDriver.PlannedDistinct | crates/comsat-engine/src/plan.rs:33-46 | the sources a search starts from are distinct |
| SearchDriver.ServingLogs | crates/comsat-engine/src/merge.rs:253-301 | serving the source at the cursor appends the next turn of the reference to the log and keeps the driver in step with it |
| SearchDriver.SearchDriver.PollCurrentSource | crates/comsat-engine/src/merge.rs:253-267 | hands over the next event of the reference, advances without changing what is to come, or waits for a live worker with an empty queue; logs which source it took from |
| SearchDriver.SearchDriver.RemoveCurrentSource | crates/comsat-engine/src/merge.rs:297-301 | removing a finished source and starting others keeps everything still to be received |
| SearchDriver.SearchDriver.PollOrderedSourceEvent | crates/comsat-engine/src/merge.rs:226-237 | the loop terminates and returns the next reference event, or nothing with the cursor at an empty queue of a live worker |
| SearchDriver.SearchDriver.PollWorkers | crates/comsat-engine/src/merge.rs:239-251 | whatever the workers do, what is to come is unchanged; progress means a worker finished |
| SearchDriver.SearchDriver.PollNext | crates/comsat-engine/src/merge.rs:352-370 | each poll terminates; ready hands over the head of what remains, end of stream means nothing remains, pending only at an empty queue of a live worker |
| SearchDriver.SearchDriver.ServiceIsFair | crates/comsat-engine/src/merge.rs:253-301 | in every state of the driver, over any stretch of services in which two sources run, it took from them numbers of events that differ by at most one, and never ran more than max_active |
| SearchDriver.Collect | crates/comsat-engine/src/merge.rs:102-371 | under every schedule the events collected are a prefix of the reference, and all of it when the stream has ended; the services in between were fair and follow the plan by the law of the log, and a lenient search that has ended heard every planned source to its end |
| SearchDriver.SelectionOrderIsIrrelevant | crates/comsat-engine/src/plan.rs:100-129 | the reference depends on the set of selected ids only |
| SearchDriver.StrictReference | crates/comsat-engine/src/merge.rs:194-208 | a strict search is just the unknown ids if there are any, else the lenient search cut after its first failure |
| SearchDriver.ReferenceIsTheMerge | crates/comsat-engine/src/merge.rs:102-208 | the whole output is a not-found failure for each unknown id in ascending order and then what deduplication leaves of the events along a lawful log that hears every planned source to its end |
| SearchDriver.LenientRecords | crates/comsat-engine/src/merge.rs:183-193 | a lenient search's records are the greedy deduplication of the sources' records in round-robin order, which the law of the log determines |
| SearchToStore.SearchRecordsAreDistinct | crates/comsat-engine/src/dedupe.rs:11-34 | a search returns records with pairwise distinct identities |
| SearchToStore.SearchedCompletionsAgree | crates/comsat-cloud/src/runtime_watch.rs:109-128 | in every reachable state completing a run with what a search returned has the same effect on both stores if and only if the records text fits or the request is invalid |
| CloudSearch.OrderIsComplete | crates/comsat-engine/src/merge.rs:226-301 | the merge takes an event if and only if some pending or running source has it |
| CloudSearch.LongRecordIsAffordable | crates/comsat-engine/src/invoke.rs:334-360 | a record with a text of 220000 characters stays within a cloud source's byte budget |
| CloudSearch.WorkerSendsIt | crates/comsat-engine/src/invoke.rs:95-129 | under the cloud limits the worker of a source that emits it sends exactly this record |
| CloudSearch.CloudSearchesMayNotFit | crates/comsat-cloud/src/cloud_config.rs:4-12 | five such sources, each within its budget, make a search whose records the D1 parameter cannot hold |
| SourceWorker.Admitted | crates/comsat-engine/src/invoke.rs:334-360 | the accepted prefix gives no reason to refuse it, and is everything exactly when nothing does |
| SourceWorker.AdmittedIsLongest | crates/comsat-engine/src/invoke.rs:334-360 | no longer prefix is free of reasons |
| SourceWorker.BudgetedSink.ApplyBudget | crates/comsat-engine/src/invoke.rs:334-360 | saturating counters, and a byte excess replaces a count excess |
| SourceWorker.BudgetedSink.EmitRecordValue | crates/comsat-engine/src/invoke.rs:314-332 | after any items the sink has sent exactly the deliverable records of the admitted prefix and holds exactly the reference's reason |
| SourceWorker.BudgetedSink.EmitFinalData | crates/comsat-engine/src/invoke.rs:300-312 | final data is read up to and including the first refused item |
| SourceWorker.FinishStreamOutcome | crates/comsat-engine/src/invoke.rs:95-129 | final data counts only without chunks, a refusal outranks the tool's error, and the guard ends once accordingly |
| SourceWorker.RunSourceOperation | crates/comsat-engine/src/invoke.rs:46-84 | the whole worker's output and its one metrics entry, for every chunk sequence and outcome |
| SourceWorker.OutputShape | crates/comsat-engine/src/invoke.rs:95-129 | valid records first, then at most one failure with nothing after it |
| SourceWorker.RecordsAreSent | crates/comsat-engine/src/invoke.rs:314-332 | to a listening consumer a worker sends exactly the records before the first item that fails a budget or is no record, in order, and one failure at most |
| SourceWorker.FailureIsTold | crates/comsat-engine/src/invoke.rs:95-129 | the failure and its count: a byte excess before a record excess before invalid data before the tool error, which counts as a cancellation, a rate limit or a failure by its code |
| SourceWorker.FinalDataIsStreamed | crates/comsat-engine/src/invoke.rs:300-312 | final data of a worker without chunks counts as if it had been streamed, up to and with the first refused item |
| SourceWorker.RecordBudgetIsExact | crates/comsat-engine/src/invoke.rs:339-347 | the record budget bounds every worker if and only if some budget is below the largest machine word |
| SourceWorker.ByteBudgetIsExact | crates/comsat-engine/src/invoke.rs:340-353 | for items of at most half a word the byte budget bounds every worker if and only if it is below the largest machine word or at most two records are allowed |
| Metrics.EngineMetrics.Start | crates/comsat-engine/src/metrics.rs:58-68 | one request and one open guard more, for this key alone, with the balance of requests kept |
| Metrics.EngineMetrics.End | crates/comsat-engine/src/metrics.rs:114-139 | a success, a failure, a rate limit or a cancellation more for this key alone, as the operation ended; requests stay equal to successes, failures, cancellations and open guards; the drop that follows counts nothing |
| Metrics.EngineMetrics.Abandon | crates/comsat-engine/src/metrics.rs:141-148 | a guard dropped unfinished counts one cancellation and keeps the same balance |
| Json.PointerRoundTrip | crates/comsat-source/src/conformance/schema.rs:82-84 | a pointer rendered from any tokens leads where the tokens lead |
| Json.PointerMeans | crates/comsat-source/src/conformance/schema.rs:82-84 | a rendered pointer finds a value if and only if its tokens lead there, member by first member and element by decimal index |
| Json.IndexRoundTrip | crates/comsat-source/src/conformance/schema.rs:82-84 | the decimal index of an element is a token that reaches it |
| SchemaWalker.CollectAnchors | crates/comsat-source/src/conformance/schema.rs:152-176 | the recursive insertion adds exactly the anchors of the subtree |
| SchemaWalker.ChildIsVisited | crates/comsat-source/src/conformance/schema.rs:163-203 | the walk visits exactly the values under the five keywords of named schemas, the elements under the four of lists, and the value or elements under the twelve of one schema |
| SchemaWalker.WellShapedMeans | crates/comsat-source/src/conformance/schema.rs:187-203 | a member is refused exactly when a keyword of named schemas holds no object or a keyword of lists no array |
| SchemaWalker.AnchorMeans | crates/comsat-source/src/conformance/schema.rs:159-163 | a node declares the string values of its $anchor and its $dynamicAnchor |
| SchemaWalker.ResourceMeans | crates/comsat-source/src/conformance/schema.rs:104-110 | a node opens a resource if and only if it has a member $id |
| SchemaWalker.ResourceKnowsItsAnchors | crates/comsat-source/src/conformance/schema.rs:67-72 | a resource knows an anchor if and only if some path that crosses no nested resource declares it |
| SchemaWalker.CarriedResourceIsNearest | crates/comsat-source/src/conformance/schema.rs:104-110 | the resource the walk carries is the nearest enclosing one of the position |
| SchemaWalker.WalkMeans | crates/comsat-source/src/conformance/schema.rs:89-135 | the walk accepts a subtree if and only if every position below is good for its resource |
| SchemaWalker.WalkDecidesConsistency | crates/comsat-source/src/conformance/schema.rs:54-203 | a document is accepted if and only if every position reachable through members and elements holds a well-shaped schema, nested $schema stands only beside $id, and every local reference resolves in its nearest resource |
| TenantRotation.WindowIsDistinct | crates/comsat-cloud/src/tenant_rotation.rs:3-15 | a window repeats no tenant and has the size of the limit or of the list |
| TenantRotation.SlotSchedule | crates/comsat-cloud/src/tenant_rotation.rs:7-14 | the pass in the slot numbered k of 300 seconds goes through the tenants cyclically from the k-th on, up to the limit or the whole list |
| TenantRotation.SlotIsOneSchedule | crates/comsat-cloud/src/tenant_rotation.rs:7-14 | readings of one slot schedule the same tenants, none twice |
| TenantRotation.EpochSchedule | crates/comsat-cloud/src/tenant_rotation.rs:7 | readings up to the epoch schedule from the first tenant on |
| TenantRotation.RotationIsExact | crates/comsat-cloud/src/tenant_rotation.rs:7-14 | of such passes exactly min(limit, n) schedule each tenant |
| TenantRotation.EachLeadsOnce | crates/comsat-cloud/src/tenant_rotation.rs:7-14 | of n passes, one at any second of each of n consecutive slots of 300 seconds, exactly one is headed by each of n distinct tenants |

## Left out

- The contents of JSON documents: whether query, cursor, target and records pass their shape checks is a field of the request, and the drivers pass documents that were checked where they were made.
- Machine integers in the stores: times, attempts and counts are unbounded, so i64 and u32 overflow and D1's 53-bit numbers are not modelled. The worker's saturating counters are.
- The two lease columns are one optional lease, since every statement sets both together.
- The order of records inside a queued payload: payloads are sets, as the two stores order them differently.
- The wording of conflicts: when both lease and run are gone the stores report different messages of one conflict class.
- Creating, deleting, listing and history on D1, and the sources table: the same single statements as on SQLite, or reads.
- Row codecs, SQL parsing and connections. The texts of D1's records parameter and of webhook bodies are modelled; other JSON encodings are not.
- The 64-bit hash behind delivery ids: ids are inputs or an injective function of watch and run, and collisions of the hash are not modelled.
- SQLite's second query for the delivery just claimed, which goes by owner: the claimed key is returned directly.
- HTTP, webhook URL and address checks and bearer tokens: a send within the body limit is one step with an input result.
- Wakers and scheduling: safety and completed-output equality are proved, wake-up latency is not.
- Channel capacity: any number of events per turn is allowed, which includes every bounded channel.
- The exit behaviour of the strict record stream command, which treats every event as final.
- Following one target, the fetch operation, the catalog, the source plugins and their cooldowns, the command line, Code Mode and telemetry.
- Drivers.RunDueWatchOnce: no other worker acts between its steps here; `NativeRuns.ClaimedWatchCommits` allows any operations of others before, between and after them.
- Drivers.RunClaimedWatch: no other worker acts between its steps here; `CloudRuns.ClaimedMessageCommits` allows any operations of others before, between and after them.
- D1Store.Store.Start: its insert and its reload are one step here; `CloudRuns.ReloadFindsRun` and `CloudRuns.ClaimedMessageCommits` let other workers act between the two.
