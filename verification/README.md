# Pomodorough protocol model

A Dafny model of the protocol code around Pomodorough's shared timer core, with proofs of what that code promises.
Each component is a set of modules:

- **Client delivery** (`Wire`, `Sequences`, `Strings`, `ClientStore`, `ClientDatabase`, `ClientRuns`, `ClientSafety`,
  `Acknowledgements`, `CanonicalJson`, `ClockSamples`). `ClientStore` gives each IndexedDB transaction of
  `web/sync-storage.js` its meaning as a function from database to commit or abort. `ClientDatabase` is the mutable
  database whose methods put, delete and clear records in loops and are proved to leave exactly that meaning behind.
  `ClientRuns` lets any number of tabs interleave the transactions, adds a history of what was ever exposed to the
  network, and proves one invariant of every reachable state; `ClientSafety` draws the consequences.
- **Server resolution** (`BootstrapServer`) and the composition with the client over a network that loses, delays,
  duplicates and reorders, with one server account for every user the client ever acts for (`EndToEnd`).
- **Recovery** (`RecoveryFiles`, `RecoveryLineage`, `RecoveryAdvance`, `RecoveryLedger`, `RecoveryEnrollment`,
  `RecoveryRestore`, `RecoverySnapshots`): the receipt chain, the data binding, deletion watermarks, enrollment,
  dominance, restore, and the way from live storage over a snapshot to a restored copy. `DeletionLedger` adds what
  the server itself writes into the ledger, and `RecoveryGrowth` and `RecoveryHistory` cover any sequence of
  snapshots, enrollments, deletions, new accounts, crashes and data changes: of any two snapshots the later one
  dominates, and so can restore the earlier one's data as far as it fits, exactly when no deletion receipt was
  rewritten in between. The code can rewrite one: a deletion that crashed after its receipt is asked for again after
  the session's CSRF token changed. `RecoveryRewrite` gives that history step by step.
- **Revision broadcast** (`RevisionHub`, `RevisionStreams`, `EventStream`): channels of capacity one, every
  interleaving of hub and streams, and the writing loop of one stream. Sending on a closed channel and closing one
  twice panic in Go; here both operations require an open channel, so every verified method excludes the panic.
- **Clocks and identifiers** (`HybridClock`, `Uuid7`).
- **Core ABI** (`AbiEvents`, `CoreHost`, `BrowserCore`): who owns which buffer of linear memory, on every failure path.
- **Limiter and frames** (`RateLimiter`, `Frames`).

Assumptions that the statements make visible: random identifiers (claim, request and token IDs) are fresh where the
code draws them; callers pass `validatePendingForSend` the token that the pending resolution holds (the model shows
that the gate invariant depends on exactly this, and gives an input that breaks it otherwise); a mutation plan of the
core adds fresh operation IDs, keeps only proven or new IDs as never sent and does not retire outgoing durations; a
batch plan selects queued IDs, which the code checks itself; the clocks that stamp ledger records are after the epoch
and below 2^53 ms. SHA-256 digests, HMAC tags and payload hashes are terms
that are equal exactly when their inputs are; HMAC in the frame format is an arbitrary function with 32-byte results.

## Model

| member | source | states |
|---|---|---|
| ClientStore.PutBatchMeaning | web/sync-storage.js:1704-1725 | Writing a batch of records over the queues adds exactly the batch's keys, leaves every other record as it was, and keeps every record under its own ID |
| ClientStore.SentBatchKeys | web/sync-storage.js:249-301 | Encoding a selection of queued records for sending names exactly the selected keys |
| ClientDatabase.Database.AddBatch | web/workspace-transaction.js:84-110 | Adding a batch store by store succeeds exactly when all its keys are new and distinct; otherwise nothing stays written |
| ClientDatabase.Database.MutateWorkspace | web/sync-storage.js:218-247 | The mutation transaction leaves the add-only queues, retired durations, proof and device that the plan means, or on a duplicate key the old database |
| ClientDatabase.Database.ClaimWorkspaceBatch | web/sync-storage.js:266-301 | Claiming returns a saved claim untouched, or stores one new claim and takes its IDs out of the proof; refusals change nothing |
| ClientDatabase.Database.MakeClaim | web/sync-storage.js:274-301 | The common tail of claiming and discarding: refuses selections that are not queued and otherwise saves the encoded batch as the one claim |
| ClientDatabase.Database.DiscardSavedClaim | web/sync-storage.js:323-353 | Discarding replaces only a confirmed claim without request bytes; if no new claim can be made the old one is back |
| ClientDatabase.Database.PersistRebasedQueues | web/sync-storage.js:1699-1725 | The per-store delete and put loops end at the rebased queues put over the old ones minus acknowledged and dropped records |
| ClientDatabase.Database.ApplySyncResponse | web/sync-storage.js:1663-1744 | Applying a response matches claim, account, gate, revision and acknowledgement rules in their order and writes all effects or none |
| ClientDatabase.Database.AcquireBootstrapGate | web/sync-storage.js:1001-1020 | Acquiring hands the gate over only when free, expired or already held, and then re-tokens the stored resolution |
| ClientDatabase.Database.ClearBootstrapGate | web/sync-storage.js:1054-1061 | Only the holder clears the gate, and only when no resolution is stored |
| ClientDatabase.Database.RewriteSelected | web/sync-storage.js:1318-1331 | The rewriting loop gives exactly the selected legacy durations the canonical time |
| ClientDatabase.Database.CaptureResolution | web/sync-storage.js:1266-1353 | Capturing stores one resolution with the selected payload, after rewriting only durations that are proven never sent |
| ClientDatabase.Database.ValidatePendingForSend | web/sync-storage.js:1397-1414 | Sending marks the stored resolution possibly delivered, drops its IDs from the proof and rewrites the gate with the caller's token |
| ClientDatabase.Database.InvalidateForeignResolution | web/sync-storage.js:1373-1395 | Another account's resolution is dropped, one's own is re-tokened, and a live foreign lease or account binding refuses |
| ClientDatabase.Database.ApplyPendingResolution | web/sync-storage.js:1568-1591 | Applying a resolution replaces queues, snapshot, proof, claim, gate and resolution together, or reports a stale success without touching them |
| ClientDatabase.Database.RetainQueues | web/sync-storage.js:1492-1512 | Without a reconciliation the stores lose the captured and dropped records and gain the promoted and retained ones, domain by domain |
| ClientDatabase.Database.ReplaceQueues | web/sync-storage.js:1498-1512 | Clearing and refilling store by store ends with exactly the reconciled records |
| ClientDatabase.Database.NormalizeLegacyDurations | web/sync-storage.js:1940-1998 | Legacy durations are all rewritten when all are proven never sent, else none; a stored resolution is rotated with them |
| ClientRuns.MutateKeeps | web/sync-storage.js:218-247 | A mutation under the core's contract keeps the whole invariant |
| ClientRuns.ClaimKeeps | web/sync-storage.js:266-301 | Claiming or replaying keeps the invariant; in particular nothing claimed stays proven |
| ClientRuns.DiscardKeeps | web/sync-storage.js:323-353 | Replacing a saved claim keeps the invariant and never reuses an applied claim |
| ClientRuns.SyncKeeps | web/sync-storage.js:1663-1744 | Applying, ignoring or refusing a response keeps the invariant, and counts the claim as applied only once |
| ClientRuns.CaptureKeeps | web/sync-storage.js:1286-1353 | A captured resolution sits under a gate with its own token and a fresh request ID |
| ClientRuns.SendKeeps | web/sync-storage.js:1397-1414 | Sending under the pending token keeps gate, proof and request invariants |
| ClientRuns.InvalidateKeeps | web/sync-storage.js:1373-1395 | Invalidation keeps the invariant whichever account acts |
| ClientRuns.ApplyKeeps | web/sync-storage.js:1538-1591 | Applying a resolution settles its request ID at most once and keeps the invariant |
| ClientRuns.NormalizeKeeps | web/sync-storage.js:1914-1998 | Normalizing legacy durations and rotating the resolution keeps the invariant |
| ClientRuns.MigrateKeeps | web/sync-storage.js:1122-1136 | Migrating legacy preferences keeps the invariant |
| ClientRuns.RunKeepsInv | web/sync-storage.js:266-353 | In every interleaving of all tabs' transactions: no exposed operation is proven never sent, a stored resolution has its gate, and claims and requests are applied at most once |
| ClientSafety.GateBlocksOrdinaryWork | web/sync-storage.js:166-176 | While a gate or resolution is stored, mutations, claims, discards and sync responses change nothing at all |
| ClientSafety.OnlyTheHolderActs | web/sync-storage.js:1266-1284 | A tab that does not hold the gate cannot clear, capture, send or apply; at most a clock sample is stored |
| ClientSafety.GateChangesHandsOnlyAfterExpiry | web/sync-storage.js:925-931 | A new token appears in the gate only through a taking action and only once the old lease has run out |
| ClientSafety.LostLeaseStaysLost | web/sync-storage.js:1001-1061 | Over any run, a tab whose lease was taken over stays without the gate until it takes it again itself |
| ClientSafety.SendKeepsGateIffTokensAgree | web/sync-storage.js:1397-1414 | Sending keeps resolution and gate under one token if and only if the caller passes the pending resolution's token |
| ClientSafety.SendWithForeignTokenBreaksGate | web/sync-storage.js:1411-1411 | A concrete call with another token that leaves a stored resolution under a foreign gate |
| ClientSafety.PossiblyDeliveredIsFixed | web/sync-storage.js:1273-1284 | No transaction alters a possibly delivered request; it can only be applied or dropped for another account |
| ClientSafety.PossiblyDeliveredStaysFixed | web/sync-storage.js:1266-1414 | Over any run without apply or foreign invalidation the possibly delivered payload is bit for bit the same |
| ClientSafety.ClaimIsReplayed | web/sync-storage.js:266-280 | Claiming again after a claim returns exactly that claim and changes nothing |
| ClientSafety.SavedClaimIsFixed | web/sync-storage.js:266-353 | A saved claim with request bytes is never altered in place, and only its own response or a bootstrap apply removes it |
| ClientSafety.SyncResponseEffects | web/sync-storage.js:1633-1697 | A response for another claim writes nothing; a stale one writes at most a clock sample |
| ClientSafety.RevisionStep | web/sync-storage.js:1663-1697 | Every transaction other than a bootstrap apply keeps the snapshot's owner and never lowers its revision |
| ClientSafety.RevisionsNeverDecrease | web/sync-storage.js:1663-1744 | Between two bootstrap applies the stored revision never decreases in any run |
| ClientSafety.NoQueuedWorkIsLost | web/sync-storage.js:1699-1725 | A sync apply removes a queued record only if it was acknowledged or is a timer command that the core dropped, even if the rebased queues omit it |
| ClientSafety.SyncQueuesExactly | web/sync-storage.js:1704-1725 | The queued keys after an apply are exactly the old ones minus acknowledged and dropped, plus the rebased ones |
| ClientSafety.RewritesOnlyNeverSent | web/sync-storage.js:1895-1964 | Both rewrites of legacy durations change only records that no claim or delivered resolution ever contained |
| ClientSafety.ApplyQueuesExactly | web/sync-storage.js:1492-1512 | After a bootstrap apply the queues hold exactly the reconciled records; without a reconciliation exactly the captured and dropped records go, and work queued after the capture is unchanged |
| Acknowledgements.CheckedIffExact | web/sync-core.js:378-401 | The checks made one by one amount to equality of the two ID multisets with every acknowledgement well formed |
| Acknowledgements.ExactAcknowledgements | web/sync-core.js:378-401 | Accepts exactly the lists that name every sent item once and nothing else, and returns those IDs |
| Acknowledgements.ValidateAcknowledgements | web/sync-core.js:403-411 | All five lists are accepted exactly when each is exact, and the acknowledged keys are then the claim's keys |
| Acknowledgements.OnlyTheClaimIsReleased | web/app-sync.js:100-147 | With validated acknowledgements everything outside the claim that the core did not drop is still queued, unchanged unless restated |
| CanonicalJson.SortedIsUnique | web/workspace-core.js:13-18 | Sorting members by key gives the same list for any order of the same members |
| CanonicalJson.CanonicalIffSame | web/workspace-core.js:13-18 | Two canonical forms are equal exactly when the values are equal with member order ignored at every depth |
| CanonicalJson.TextIsPrefixFree | web/workspace-core.js:20-22 | The JSON text of a value determines the value, and no value's text is a proper prefix of another's followed by a separator |
| CanonicalJson.RecordsEqualIffSame | web/workspace-core.js:20-22 | recordsEqual holds exactly for values that are equal as JSON, which is what decides claim matching |
| ClockSamples.StoresGreatest | web/sync-storage.js:937-956 | After any samples in any order, malformed ones among them, the stored one is valid and ranks highest by request sequence, receive time and less uncertainty |
| ClockSamples.MergeIsOrderIndependent | web/sync-storage.js:996-999 | Samples offered in any order and any number of times, the stored one again included, end at the same stored sample when those that tie are equal |
| ClockSamples.AllocationsIncrease | web/sync-storage.js:987-994 | Allocated request sequences strictly increase from the stored one and stay in the safe range |
| BootstrapServer.MatchesRecordedIffSamePayload | internal/store/bootstrap.go:144-165 | A request matches a record of this server exactly when device, revision, strategy, presence flags and operations agree up to time zone and device of each operation |
| BootstrapServer.MatchesOlderRecords | internal/store/bootstrap.go:150-163 | A record of an older server matches exactly the requests that leave out the newer lists and agree in device, revision, strategy and every operation list that server hashed |
| BootstrapServer.NormalizedCopy | internal/store/bootstrap.go:373-393 | The copy-then-overwrite loop yields the normalized operations without touching the request |
| BootstrapServer.AccountStore.ResolveBootstrap | internal/store/bootstrap.go:58-89 | The transaction with roll-back on every error ends in exactly the account and answer that the submission means |
| BootstrapServer.SubmissionEffects | internal/store/bootstrap.go:116-267 | Errors and recorded IDs change nothing; a fresh success needs the expected revision, raises it by at most one and records the answer |
| BootstrapServer.RetryIsAnswered | internal/store/bootstrap.go:116-142 | A retry of a recorded payload gets the recorded answer with no state change whatever the revision is by then |
| BootstrapServer.AtMostOnce | internal/store/bootstrap.go:58-89 | In any history of submissions and other writes an ID is applied at most once and raises the revision by at most one |
| BootstrapServer.StrategyScope | internal/store/bootstrap.go:187-216 | keep_remote touches no operation table; replace_remote applies to empty timer, task and duration tables, and keeps an optional list that the request leaves out as its base |
| EndToEnd.RunKeepsInv | web/sync-storage.js:1397-1566 | In every run of client, network and servers a request ID names one payload of one account, and every reply in flight is on that account's record |
| EndToEnd.ServerRun | internal/store/bootstrap.go:58-89 | Each account's part of a composed run is a run of its server alone on the messages that arrive for it |
| EndToEnd.AtMostOnceEndToEnd | web/app-bootstrap.js:280-399 | In every run over any number of accounts a request is applied at most once by the client and at most once by each server, and what the client installed is the revision on record for its payload in the account it was captured for |
| EndToEnd.RepliesGrow | web/app-bootstrap.js:359-399 | No answer in flight is ever taken back by a later event |
| EndToEnd.RetryIsAnsweredForever | web/app-bootstrap.js:359-399 | Once a request was answered in a run, every later arrival of it at any later point of that run gets the same answer and changes nothing, whatever the revision is by then |
| RecoveryFiles.InventoryIsFaithful | scripts/restore_drill.py:127-141 | Two directories with the same inventory are the same |
| RecoveryFiles.CleanupRestores | scripts/restore_drill.py:273-283 | Whatever temporary files an interrupted write left, cleaning up restores the directory |
| RecoveryLineage.LoadRecoveryReceipts | scripts/restore_drill.py:343-352 | The loop over sorted receipt files returns the whole chain or the first refusal |
| RecoveryLineage.LoadsExactlyChains | scripts/restore_drill.py:297-352 | Receipts load exactly when files 1 to n exist, no other, each authentic and naming the digest of the one before |
| RecoveryLineage.SameDigestSameHistory | scripts/restore_drill.py:323-352 | Two accepted ledgers with the same digest at receipt n hold identical receipts 1 to n |
| RecoveryAdvance.Storage.AdvanceRecoveryLineage | scripts/restore_drill.py:390-431 | The writes happen in the order domain, receipt, binding, each exclusive one on a free name, and the disk after each is the one given |
| RecoveryAdvance.Storage.EnsureRecoveryDomain | scripts/restore_drill.py:308-320 | A domain is created only in a ledger without receipts, and kept otherwise |
| RecoveryAdvance.AdvanceExtends | scripts/restore_drill.py:419-445 | An advance refuses without writing or appends one receipt; after either write the disk is accepted, and at the end the data validates at the new sequence |
| RecoveryAdvance.FirstDomain | scripts/restore_drill.py:308-320 | On a fresh disk the first write alone already makes it acceptable, and a later advance continues from there |
| RecoveryAdvance.AdvanceSucceedsIff | scripts/restore_drill.py:419-431 | From an accepted disk an advance succeeds exactly when the chain has room and the data is bound, first or as last recorded |
| RecoveryAdvance.CrashAfterReceipt | scripts/restore_drill.py:424-431 | After a crash between receipt and binding the next advance succeeds unless no binding exists and the data changed |
| RecoveryAdvance.ChainIsAppendOnly | scripts/restore_drill.py:343-431 | Over any order of completed advances, crashes after any write and data changes, receipts are only ever appended |
| RecoveryLedger.NormalizeLaws | scripts/restore_drill.py:492-505 | A mark is deleted exactly when the deletion is at least as new as the lifecycle, and its generation is then the deleted one |
| RecoveryLedger.LedgerHighWatermark | scripts/restore_drill.py:478-489 | Reading file by file gives every account's mark, or nothing if any file or pair of files is unacceptable |
| RecoveryLedger.ValidateDataAgainstLedger | scripts/restore_drill.py:536-552 | Accepts exactly the data whose databases are at or below their deletion or are the active lifecycle generation, and whose leftovers are of deleted accounts |
| RecoveryEnrollment.PlannedLifecycleRecords | scripts/restore_drill.py:590-608 | Plans one record for exactly the accounts without one, or refuses when some account cannot be enrolled |
| RecoveryEnrollment.WriteEnrolled | scripts/restore_drill.py:611-620 | The exclusive writes add exactly the planned records to the ledger |
| RecoveryEnrollment.EnrollmentNeverLowers | scripts/restore_drill.py:590-623 | Enrollment keeps the ledger acceptable, lowers no rank and no deletion and changes no other account |
| RecoveryEnrollment.EnrolledAccountsFit | scripts/restore_drill.py:590-623 | Every account that is enrolled validates afterwards |
| RecoveryEnrollment.EnrollmentValidatesIff | scripts/restore_drill.py:611-625 | The validation after enrollment passes exactly when the accounts enrolled earlier pass it before |
| RecoveryEnrollment.SecondPlanIsEmpty | scripts/restore_drill.py:590-608 | A second enrollment plans nothing |
| RecoveryEnrollment.EnrollmentDelta | scripts/restore_drill.py:579-587 | The inventory check after enrollment always passes: old entries unchanged, exactly the planned names new |
| RecoveryRestore.ManifestIsBinding | scripts/restore_drill.py:720-745 | A manifest fits one pair of directories only |
| RecoveryRestore.FreshSnapshotVerifies | scripts/restore_drill.py:629-638 | Corollary of the definitions: a snapshot can be made exactly of acceptable, bound storage, and then verifies |
| RecoveryRestore.RequireLedgerDominates | scripts/restore_drill.py:754-771 | The entry-by-entry comparison accepts exactly when one manifest dominates the other |
| RecoveryRestore.DominanceIsReflexive | scripts/restore_drill.py:754-771 | Every manifest dominates itself |
| RecoveryRestore.DominanceIsTransitive | scripts/restore_drill.py:754-771 | Dominance passes along a chain of manifests |
| RecoveryRestore.DominanceImpliesLineage | scripts/restore_drill.py:796-800 | If two snapshots verify and one dominates, its chain continues the other's and the old data validates against it with exactly the old lineage, so the link check cannot fail |
| RecoveryRestore.RestoreSucceedsIff | scripts/restore_drill.py:774-816 | A restore succeeds exactly when both verify, the trusted ledger dominates and the databases fit it; it yields the old data with the trusted ledger |
| RecoveryRestore.RestoreOfItself | scripts/restore_drill.py:774-816 | A verified snapshot can always be restored with its own ledger |
| RecoveryRestore.RestoreNeverUndeletes | scripts/restore_drill.py:774-816 | Corollary of the definitions: no deletion or rank of the old ledger is lowered, and every restored database is deleted or exactly the active generation |
| RecoveryRestore.DeletionsSurvive | scripts/restore_drill.py:754-771 | Along any history of dominating ledgers every deletion once recorded stays recorded |
| RecoverySnapshots.CreatedSnapshotVerifies | scripts/restore_drill.py:647-674 | From storage with recovery records in order a snapshot is made exactly when the accounts fit and the lineage can advance; it verifies, holds exactly the live account data and is bound to the newest receipt |
| RecoverySnapshots.CreateThenRestore | scripts/restore_drill.py:647-812 | A snapshot that was made can be restored and gives back the live account data and ledger |
| RecoveryGrowth.GrownLedgerDominates | scripts/restore_drill.py:754-816 | If a ledger grew, its later snapshot dominates the earlier one exactly when every deletion receipt stayed what it was, and the old data can then be restored under it exactly when the databases fit |
| DeletionLedger.Ledger.RecordAccountLifecycle | internal/store/deletion_ledger.go:374-399 | One rename, or a refusal that writes nothing, as the record's meaning gives |
| DeletionLedger.Ledger.RecordAccountDeletion | internal/store/deletion_ledger.go:329-372 | Tombstone and then lifecycle, with the ledger after each write as given |
| DeletionLedger.Ledger.DeleteUserWithReceipt | internal/store/deletion_receipt.go:120-162 | Answered from a committed receipt, refused, or receipt, tombstone and lifecycle in this order, with the ledger after each write as given |
| DeletionLedger.Ledger.OpenUserAccount | internal/store/database.go:17-86 | A usable database is reused; otherwise the account is recorded active just above its deletion, or refused |
| DeletionLedger.Ledger.ApplyDeletionObligation | internal/store/deletion_ledger.go:589-624 | Deferred deletions get their lifecycle record, bound accounts are left alone, and anything else is refused |
| RecoveryHistory.ServerReadsTheSame | internal/store/deletion_ledger.go:286-316 | What server and recovery tool read from the records of an acceptable ledger agrees |
| RecoveryHistory.DeleteUserGrows | internal/store/deletion_receipt.go:120-162 | At every write of a deletion the ledger is acceptable, no mark has fallen and no lasting file changed |
| RecoveryHistory.OpenUserGrows | internal/store/database.go:17-86 | The same for opening an account |
| RecoveryHistory.ApplyObligationGrows | internal/store/deletion_ledger.go:589-624 | The same for a deletion obligation at start-up |
| RecoveryHistory.AdvanceGrows | scripts/restore_drill.py:419-431 | The same at every write of an advance |
| RecoveryHistory.EnrollmentGrows | scripts/restore_drill.py:590-620 | The same for an enrollment, whatever part of it a crash let through |
| RecoveryHistory.RunGrows | scripts/restore_drill.py:478-505 | Over any sequence of snapshots, enrollments, server writes, crashes, leftovers and data changes the ledger stays acceptable and grows |
| RecoveryHistory.SnapshotIsNewest | scripts/restore_drill.py:647-674 | A snapshot of any storage verifies and is bound to the newest receipt of its ledger |
| RecoveryHistory.LaterSnapshotDominates | scripts/restore_drill.py:647-816 | Of any two snapshots, whatever happened in between, the later dominates exactly when every deletion receipt stayed what it was, and restores the older data exactly when it also fits the later marks |
| RecoveryHistory.StepKeepsReceiptIff | internal/store/deletion_receipt.go:41-108 | A step changes a deletion receipt exactly when it is a deletion that may start, wrote something, and found another receipt under its own credential |
| RecoveryHistory.LaterSnapshotRestores | scripts/restore_drill.py:647-816 | Without such a step in between the later snapshot always dominates |
| RecoveryRewrite.RewrittenReceiptBreaksDominance | internal/store/deletion_receipt.go:120-162 | A concrete history (crash after the receipt, snapshot, new CSRF token, retry, snapshot) whose later ledger does not dominate, so the older data cannot be restored under it |
| RecoveryHistory.DeletionCommits | internal/store/deletion_receipt.go:154-162 | From its second write on a deletion is committed: its receipt is there and its generation deleted |
| RecoveryHistory.CommittedAnswers | internal/store/deletion_receipt.go:126-135 | A committed deletion answers its own request, by cookie only with the same CSRF hash, and writes nothing again |
| RecoveryHistory.CommittedForever | internal/store/deletion_receipt.go:38-52 | Over any sequence of steps a committed deletion stays committed, under the very same receipt |
| RevisionHub.SubscribeKeeps | internal/server/hub.go:31-63 | Subscribing registers a new open channel under a new ID, or hands out a closed one on a closed hub |
| RevisionHub.SubscribeAddsOne | internal/server/hub.go:47-54 | An open hub adds exactly one entry, under a never used ID and with the caller's credentials, on an open empty channel |
| RevisionHub.SubscribeToClosed | internal/server/hub.go:41-46 | Corollary of the definitions: a closed hub registers nothing and hands out a closed channel whose unsubscribe does nothing |
| RevisionHub.DisconnectMatchingExactly | internal/server/hub.go:114-140 | Exactly the matching subscriptions go, exactly their channels are closed, and the latest revision stays |
| RevisionHub.PublishReachesTheScope | internal/server/hub.go:65-88 | A newer revision waits in exactly the channels of its scope, and in no other scope anything changes |
| RevisionHub.PublishKeeps | internal/server/hub.go:65-88 | Publishing keeps every registered channel open and unshared with nothing newer waiting than the latest revision |
| RevisionHub.DisconnectMatchingKeeps | internal/server/hub.go:126-140 | Closing some of a scope's channels leaves only open ones registered |
| RevisionHub.ShutdownKeeps | internal/server/hub.go:101-112 | After a shutdown no subscriber is left and none can register |
| RevisionHub.RevisionHub.SubscribeTo | internal/server/hub.go:31-63 | The call updates ID counter, table and channels as a subscription means, in both hub states |
| RevisionHub.RevisionHub.UnsubscribeFrom | internal/server/hub.go:55-62 | The returned closure removes exactly its own entry and an emptied scope |
| RevisionHub.RevisionHub.PublishRevision | internal/server/hub.go:65-88 | The loop never sends on a closed channel and leaves the new revision, alone, in every subscriber's channel of the scope |
| RevisionHub.RevisionHub.DisconnectScope | internal/server/hub.go:90-99 | Every channel of the scope is closed once, and its subscribers and latest revision are forgotten |
| RevisionHub.RevisionHub.DisconnectWhere | internal/server/hub.go:126-140 | Exactly the matching subscriptions are closed once and removed, while the latest revision stays |
| RevisionHub.RevisionHub.ShutdownHub | internal/server/hub.go:101-112 | Every channel is closed once; only scopes with subscribers lose their latest revision |
| RevisionHub.DeliveryIsAtomic | internal/server/hub.go:73-87 | A receiver that runs between the steps of a delivery sees a receive before or after one indivisible replacement, and the new revision is never lost |
| RevisionStreams.RunKeeps | internal/server/stream.go:19-48 | In every interleaving of streams, publishers, disconnects and shutdown: channels are owned by one stream, entries by streams that have not ended, and each stream's state is consistent |
| RevisionStreams.NothingIsLost | internal/server/stream.go:26-47 | A connected stream after its initial read has seen, or has waiting, a revision at least as new as the latest published |
| RevisionStreams.CaughtUp | internal/server/stream.go:67-97 | With nothing waiting, the last revision sent is at least the latest published and at most the committed one |
| RevisionStreams.SentIncreases | internal/server/stream.go:83-89 | The revisions sent to a client strictly increase |
| RevisionStreams.NoLeaks | internal/server/stream.go:26-27 | The hub lists no subscription once every stream has ended |
| RevisionStreams.ClosedExactlyWhenCut | internal/server/stream.go:79-82 | A running stream finds its channel closed exactly when it was disconnected |
| EventStream.MaximaLaws | internal/server/stream.go:67-97 | The maxima of a list strictly increase, come from the list and end with its greatest element |
| EventStream.NewMaximumIsKept | internal/server/stream.go:83-89 | A revision newer than all before it is never skipped |
| EventStream.Serve | internal/server/stream.go:67-97 | The loop writes exactly the running maxima of the first and the delivered revisions, and stops only at a close, a gone client or a failed write |
| HybridClock.TickIsLeast | internal/server/hlc_tick.go:19-101 | The tick is the least clock above local and remote with wall not behind physical time, and fails on valid input only when the counter at that wall is exhausted |
| HybridClock.RejectsExactlyMalformed | internal/server/hlc_tick.go:44-70 | Missing, partial and out-of-range components are rejected, and nothing else but overflow |
| HybridClock.TicksAreContiguous | web/sync-authority.js:135-143 | Consecutive local ticks share one wall and take contiguous counters |
| HybridClock.AllocateBatch | web/sync-authority.js:135-143 | A batch succeeds exactly when every tick does and returns the first clock and the contiguous counters |
| HybridClock.RunIsMonotone | internal/server/hlc_tick.go:19-42 | In any run of nodes each clock is above its node's previous one and its message's, and no wall exceeds the largest wall or physical time seen |
| HybridClock.HappensBeforeOrdersClocks | internal/server/hlc_tick.go:19-42 | Happens-before over any chain of events and messages implies strictly smaller clocks |
| Uuid7.ComposeIsMonotone | web/sync-storage-uuid.js:26-36 | The 128-bit integers are ordered by timestamp and then by random value |
| Uuid7.PartsOfFromParts | web/sync-storage-uuid.js:26-48 | parts gives back the timestamp, random value and integer that fromParts was given |
| Uuid7.FromPartsOfParts | web/sync-storage-uuid.js:26-48 | fromParts of the parts of an accepted text is that text in lower case |
| Uuid7.ComposedDigits | web/sync-storage-uuid.js:26-36 | Every generated text has version digit 7 and a variant digit from 8 to b (section 5.7 of RFC 9562) |
| Uuid7.TextOrder | web/sync-storage-uuid.js:21-24 | Larger integers have larger texts |
| Uuid7.LatestOf | web/sync-storage-uuid.js:50-63 | The fold over pending IDs finds the largest parseable one |
| Uuid7.RandomBatch | web/sync-storage-uuid.js:84-101 | The retry loop returns a block at the first draw that leaves room, within 74 bits, or fails after sixteen |
| Uuid7.BlockStartIsAbove | web/sync-storage-uuid.js:103-115 | A block fits in the 74 random bits and starts above the stored ID and every parseable pending ID |
| Uuid7.Reserve | web/sync-storage-uuid.js:103-115 | A reservation succeeds exactly when request, stored state and entropy allow it, and returns consecutive IDs of one timestamp |
| Uuid7.IssueIsAbove | web/sync-storage-uuid.js:65-115 | Every issued ID is a canonical version 7 UUID no earlier than the clock reading and above stored and pending IDs |
| Uuid7.IssuedIncrease | web/sync-storage-uuid.js:103-115 | Over any run of reservations with arbitrary clock readings the issued IDs strictly increase (section 6.2 of RFC 9562) |
| Uuid7.IssuedIncreaseAsText | web/sync-storage-uuid.js:103-115 | The same as text order, with no ID repeated |
| AbiEvents.FreeOwnedFrees | internal/sharedcore/core.go:269-292 | The clean-up frees exactly the held non-empty buffers, last one first, whatever frees are refused |
| CoreHost.Instance.Call | internal/sharedcore/core.go:231-267 | Call by call against an arbitrary module the function makes exactly the events, and returns the outcome, that its meaning gives |
| CoreHost.Instance.Release | internal/sharedcore/core.go:269-281 | The deferred downward loop makes the free calls of the clean-up and collects every refusal |
| CoreHost.BuffersConserved | internal/sharedcore/core.go:231-329 | For every pattern of failures each buffer obtained gets exactly one free call, in reverse order |
| CoreHost.SucceedsExactlyWhenAllGood | internal/sharedcore/core.go:231-329 | A call succeeds exactly when every answer was good; a refused free takes the result away; nothing is read after a free |
| CoreHost.SuccessfulCall | internal/sharedcore/core.go:231-329 | A successful call made these nine events in this order, and its result is what was read from the buffer of its own dispatch |
| BrowserCore.SharedCore.CallCore | web/shared-core.js:105-174 | Step by step the browser's call leaves the history, outcome and unusable mark that its meaning gives |
| BrowserCore.SharedCore.ReleaseAll | web/shared-core.js:264-282 | The release loop over the reversed list frees like the server's clean-up and reports every refusal |
| BrowserCore.BuffersConserved | web/shared-core.js:105-282 | In every call each buffer obtained is freed exactly once, in reverse order |
| BrowserCore.SuccessfulCall | web/shared-core.js:128-151 | A successful call made these nine events in this order, and its value is parsed from bytes copied before any free |
| BrowserCore.RefusedFreeIsRemembered | web/shared-core.js:156-173 | A refused free suppresses the result and marks the instance, nothing else marks it, and a marked instance touches nothing |
| BrowserCore.LifetimeIsConserved | web/shared-core.js:105-174 | Over an instance's life it is unusable exactly when some free was refused, and all its buffers were freed once |
| BrowserCore.UnusableForever | web/shared-core.js:105-110 | After a refused free every later call fails and leaves the history as it is |
| RateLimiter.StepIsBounded | internal/server/rate_limit.go:25-63 | The table never exceeds 4096 entries and every denial reports a wait above zero and at most one window |
| RateLimiter.WindowRateLimiter.Allow | internal/server/rate_limit.go:25-63 | The call with its eviction and pruning loops leaves the table, and gives the decision, that the rule means |
| RateLimiter.StepRefines | internal/server/rate_limit.go:25-63 | Pruning and capacity eviction never forget an unexpired window: the decision is the one of a table that forgets nothing |
| RateLimiter.RunRefines | internal/server/rate_limit.go:25-63 | For a clock that never runs backwards all decisions of a run agree with the table that forgets nothing |
| RateLimiter.PrunedWindowBound | internal/server/rate_limit.go:25-63 | Any half-open interval of one window length admits at most 2 * limit - 1 requests per key |
| RateLimiter.WindowBoundIsReached | internal/server/rate_limit.go:40-51 | For every limit a run reaches that bound, so it cannot be lowered |
| RateLimiter.ConcurrentLimiter.Acquire | internal/server/rate_limit.go:75-94 | A grant is refused exactly when the key holds as many as the limit |
| RateLimiter.ConcurrentLimiter.Release | internal/server/rate_limit.go:84-93 | Releasing ends exactly that grant, a second release changes nothing, and the table lists exactly the keys that hold one |
| Frames.Reader.ReadFull | internal/irohsync/protocol.go:115-126 | Whatever sizes the pieces have, reading takes exactly the next n bytes or reports too few |
| Frames.EncodeFrame | internal/irohsync/protocol.go:96-109 | The filled buffer is the frame of the body; wrong secrets and body sizes are refused |
| Frames.DecodeFrame | internal/irohsync/protocol.go:111-131 | The reader ends where the decoded frame ends, with the answer that its bytes mean |
| Frames.DecodesExactlyFrames | internal/irohsync/protocol.go:111-131 | Decoding gives a body exactly on input that starts with that body's frame |
| Frames.FramesArePrefixFree | internal/irohsync/protocol.go:96-109 | No frame is a prefix of another |
| Frames.ProperPrefixIsShort | internal/irohsync/protocol.go:115-126 | Every proper prefix of a frame is refused as too short |
| Frames.StreamCutAnywhere | internal/irohsync/protocol.go:111-131 | A stream of frames cut anywhere yields only bodies that were sent, in order, and all of them exactly when uncut |
| Frames.StreamRoundTrip | internal/irohsync/protocol.go:96-131 | Decoding the concatenated frames of any list of bodies gives the list and consumes every byte |

## Left out

- The shared core itself (projection, reduction, reconciliation, batch choice): its WebAssembly binary is not part of this model; plans, rebased queues and account reductions are inputs with the contracts named above.
- A sync response that is applied without a reconciliation, with promoted commands of its own (`web/sync-storage.js:1157-1164`, `web/sync-storage.js:1715`): the app always passes one.
- Metadata keys that carry no protocol state: settings, timer owner, completion state, workspace observation, canonical head, projection pending and timer dependencies.
- `retireProofAndPersistOutgoing` (`web/sync-storage.js:1746-1769`) is not on the sync path; it only explains initial databases that hold a claim without request bytes.
- The delivery proof is a set of (domain, ID) pairs; its per-queue arrays and their sanitizing are not modelled. IDs of wrong JavaScript type, undefined members, negative zero and lone surrogates are not part of the JSON values.
- The app's own copies of stored state, its retry timers, dialogs and messages (`web/app-sync.js`, `web/app-bootstrap.js`): they choose when a transaction runs, and the runs allow every choice.
- Progress after a conflict: a possibly delivered resolution cannot be replaced, so nothing is claimed about the retry after a 409.
- The server stores answers as JSON and normalizes them when read; the model keeps the answer itself. Maintenance flags, SQL and the HTTP layer are left out; a transaction commits or rolls back as a whole.
- The order of a directory listing, file sizes and size limits, inodes, symbolic links, fsync, temporary names inside an atomic write, and modes above 0o777 in the recovery tool; inventories are maps from path to entry.
- A receipt or binding whose JSON numbers are booleans or floats: their tags could only be made with the ledger's key.
- Accounts that appear or are deleted during an end-to-end run: the set of accounts is fixed, and a message for any other user is refused.
- A snapshot taken while the server writes (the tool refuses storage that changes), removal of an account's database files other than as an arbitrary change to the data, and size limits and unknown fields of the server's ledger records. The live-session check of a deletion is a flag.
- Which generation `DeleteUser` and `DeleteUserForGeneration` choose (`internal/store/store.go:101-147`): the history allows any.
- Digests and tags in the recovery tool are terms, so collisions, and a digest of 64 zeros, do not exist.
- Legacy database drill, manifest timestamps, schema and checksum file (`scripts/restore_drill.py:641-712`, `scripts/restore_drill.py:820-837`) and the checks that storage did not change while it was copied: one-branch checks around the modelled part.
- Wrap-around of the hub's 64-bit subscription counter, and the keepalive timer; a stream step is any event the select may deliver.
- Saturating time arithmetic and the monotonic clock reading in the limiter; times are integers. Its request counter wraps at 64 bits as in the source.
- Instantiating and closing a module for a batch of calls (`internal/sharedcore/core.go:147-203`), and export checks.
- Invites and room IDs of the sync protocol, and reading errors of a connection other than its end.
- CoreHost.SuccessfulCall: asks for a non-empty operation and input, which `internal/sharedcore/core.go:154-161` demands of every caller; the same checks keep lengths below 2^32, so their conversion to 32 bits is not modelled.
- HybridClock.AllocateBatch: takes the server's tick as the meaning of the core's tick.
- Sign-out and account deletion flows, user interface, notifications, monitoring, static serving, authentication and wire-field validation: mostly one-branch checks or platform calls.
