# CandidCrowd backend: verified model

A Dafny model of the state machines behind the CandidCrowd backend: small transactions over database
rows, and the protocols that call other systems between them. Each SQL transaction or single
statement is one atomic step. Tables are sequences of rows in insertion order (`Tables.dfy` gives
WHERE, UPDATE, DELETE, SUM and COUNT their meaning, `Sorting.dfy` ORDER BY and LIMIT), or maps where
the program only ever looks a row up by a unique column. Every operation is a function of the tables;
the classes hold the same tables as fields and their methods are proved to do what the functions say.
What an operation accepts and writes is stated once more on the columns alone, in predicates no
operation calls (the lemmas named `...Statement` and those beside them): results told through an
operation rest on these. Main results are about every run of those steps, in any order, with any repetition.

`dafny verify dfyconfig.toml` checks the whole project.

| files | what they model |
|---|---|
| `Media`, `MediaLedger`, `LedgerRuns`, `MediaRepository` | the quota counters on the event row against the media rows |
| `UploadService`, `Gallery` | the upload use cases with other requests' steps in between; keyset pagination |
| `Catalog`, `Grants`, `Licences`, `EntitlementRepository`, `Backfill` | plans, the grant stack, consume-once licences, the legacy backfill |
| `Purchases`, `Pricing`, `Billing`, `Reconciliation`, `Refunds`, `BillingService`, `PaddleMapper` | quotes, promotions, the purchase machine, the reconciler, refund totals, provider amounts |
| `Archive`, `Retention`, `MediaJobs`, `Realtime` | copy-verify-delete, purge, the job queue, one topic's fan-out |
| `Witnesses` | short runs from empty tables, most of them with a promise of the plan and billing code not kept |

## Where the code does not do what it says

Each of these is a lemma with the exact condition for all inputs, beside a concrete run or state that
fails it. `Witnesses.dfy` holds the runs of plans and purchases, from empty tables.

- `DeleteManyUploads` removes rows of any status although its comment promises rows that never
  completed. It keeps the counters exactly when that promise holds (`MediaLedger.ReleaseExactly`). Its
  three callers release after a call to storage, and whatever other requests did meanwhile, the
  counters are right afterwards exactly when no row released completed in that time
  (`UploadService.LateReleaseIff`). `CreateUpload` can lose that race to a retry of the same client
  upload, which can then be charged twice (`UploadService.UnguardedReleaseDrifts`,
  `UploadService.UnguardedReleaseChargesTwice`), and `ExpireStale` to a late completion
  (`UploadService.ExpiryDrifts`).
- When `UpdateStatuses` reports not found, the rows it did match are moderated: nothing has changed
  exactly when none of the named rows is stored (`MediaLedger.NotFoundChangesNothingIff`,
  `MediaLedger.NotFoundHidesOne`). `DeleteForEvent`, which makes the same report, undoes its write.
- `Revoke` restores "the plan it replaced" by activation time. For callers that date an activation
  themselves this is the grant pushed last exactly when the date is later than the plan it replaced
  (`Grants.RestoresLastPushedIff`, `Witnesses.RevokeSkipsExperience`).
- Licences are unique per consumed event (`migrations/000037_event_licenses_and_trial_policy.up.sql:32-34`),
  so a second paid purchase on one event, which is what a paid upgrade is, is quoted
  (`Witnesses.SecondIsQuoted`), settles and is never applied (`Licences.PurchaseAppliesIff`,
  `Licences.SecondPurchaseNeverApplies`, `Billing.SettlementAppliesIff`,
  `Billing.SecondPaidPurchaseStaysOwed`, `Witnesses.SecondPurchaseRun`).
- `ReconcileUnapplied` is said to converge on one licence and one grant per purchase. A run in which no
  mark fails applies a purchase that was paid and not applied exactly when its status is still settled,
  fewer than the batch were settled before it and are still owed, its own retry would go through, and
  no older one of its event's would (`Reconciliation.AppliedIff`, from `Reconciliation.RetriedIff` and
  `Reconciliation.ReconcileOutcome`). So as many second purchases as fill a batch shut out every later
  one for ever (`Reconciliation.NeverReached`, `Witnesses.NeverRetriedRun`), and a purchase partly
  refunded before it was applied, which stays paid, is on no list again unless a dispute of it is
  decided for the host (`Reconciliation.PartialRefundForgets`, `Reconciliation.ReversedIsForgotten`,
  `Witnesses.PartialRefundRun`).
- Entitlement is said to be unwound where nothing was consumed, and events flagged only where it was.
  A licence is only ever committed consumed, so `RevokeUnconsumed` never finds one to withdraw
  (`Licences.NothingToWithdraw`), and a full refund flags an event on which nothing of the purchase was
  consumed exactly when the purchase has no licence, that is, while it is owed
  (`Billing.FlagsUnconsumedIff`, `Witnesses.SecondPurchaseRun`).
- A dispute decided for the host is said to be restored. The purchase is as before exactly when it was
  settled and the cap was not met, and the flag exactly when there was none (`Billing.DisputeUndoneIff`,
  `Witnesses.DisputedRefundRun`).
- A refund is recorded before the licence call that may fail; every retry then adds it again
  (`Refunds.RetryCountsOnceIff`, `Refunds.RetriesAddUp`, `Witnesses.RetriedRefundRun`).
- A refund delivered before the payment uses up its dedupe key and returns nothing, then or later: the
  purchase has returned what its refunds name exactly when none of them came early or the others
  return the total (`Refunds.EarlyRefundsLostIff`, `Witnesses.EarlyRefundRun`).
- The mapper says a refund not approved yet moves no money, and looks for one status only: a rejected
  refund is returned like an approved one (`PaddleMapper.RejectedIsReturned`).
- `UpdateCheckout` has no status guard: it keeps a purchase consistent exactly when its payment has not
  settled, or another purchase of the event is open, whose place in the unique index refuses the write
  (`Billing.LateCheckoutReopens`, `Witnesses.LateCheckoutRun`).
- `MarkSourceDeleted` says a listing can never sign the key of a deleted object. The object is deleted
  one call earlier: a listing can exactly when the row was signable and its object is gone, unless the
  deletion was heard of and the mark took effect (`Archive.RemovalOpensGap`, `Archive.GapIff`,
  `Archive.SignedThoughGone`). Such a row still awaits deletion (`Archive.DanglingIsPending`), and a
  clean run that lists them all leaves none (`Archive.ArchiveService.Run`).
- A media job of an unknown kind is said to be retired. A run retires it exactly when that was its last
  attempt; it leaves the queue after `MaxAttempts` claims and backoff * (2^(MaxAttempts-1) - 1) of
  waiting (`MediaJobs.UnknownKindRetiredIff`, `MediaJobs.RetiredIffAttemptsUsed`,
  `MediaJobs.UnknownKindIsRetried`).

## Assumptions

- uuids are natural numbers, uuid.Nil is 0; fresh ones are arguments, and where a collision would hit a
  unique index the model reports the key clash instead of assuming there is none.
- Times are integers in nanoseconds. Dates are day numbers; UTC days all have the same length.
- The plan registry is fixed during a run. Grants stay one stack only for runs whose activation times
  increase per event (`Licences.Guarded`); the licence and billing results do not need that.
- A content hash is an injective function, and the archive names every upload anew.
- `CreateCheckout` ends before a notification for its purchase arrives (`Billing.Guarded`).
- The schema's constraints hold, and a write they refuse changes nothing. Modelled for purchases: one
  open purchase per event (`migrations/000035_billing_hardening.up.sql:20-22`), a purchase's event has a
  row (`migrations/000034_event_billing.up.sql:4`), one purchase per provider transaction.
- Calls to other systems are arguments that say whether the call failed, and whether it took effect.

## Model

| member | source | states |
|---|---|---|
| LedgerRuns.CountersNeverDrift | internal/entitlement/repository.go:421-437 | over any interleaving of reserve, ready, release of never-completed rows, moderation, soft delete and purge, the CounterDrift query stays empty and the unique keys hold |
| MediaModel.WeightIs | internal/entitlement/repository.go:421-437 | what one row is worth in each counter, by its status and type |
| LedgerRuns.ClampsNeverFire | internal/platform/database/media_repository.go:166-309 | in every such state no GREATEST(...,0) of any operation takes effect |
| MediaLedger.ReleaseExactly | internal/platform/database/media_repository.go:161-191 | the batch release keeps counters and rows in step if and only if no named row of an unpurged event ever completed |
| MediaLedger.NotFoundChangesNothingIff | internal/platform/database/media_repository.go:211-222 | a bulk moderation that reports not found left the tables alone if and only if no named row is stored (or they already carried what it writes) |
| MediaLedger.NotFoundHidesOne | internal/platform/database/media_repository.go:211-222 | a valid ledger in which hiding a ready and a deleted photo reports not found and hides the ready one |
| LedgerRuns.BytesStayBounded | internal/platform/database/media_repository.go:41-74 | used plus reserved bytes never exceed the larger of their initial value and B, over every run in which each reservation has a byte limit of at most B, its own or else the event's |
| LedgerRuns.ItemsStayBounded | internal/platform/database/media_repository.go:47-62 | the same for items, photos and videos under enforced limits |
| LedgerRuns.CompletionMovesSizeDifference | internal/platform/database/media_repository.go:262-309 | completion moves the held bytes by actual minus expected size and by nothing else |
| LedgerRuns.LifetimeOnlyGrows | internal/platform/database/media_repository.go:232-252 | no run lowers an upload counter: deleting media gives no allowance back |
| LedgerRuns.PurgedStaysFrozen | internal/retention/repository.go:50-83 | after a purge the event's columns never change again and it holds no bytes, whatever runs later |
| LedgerRuns.ChargedAtMostOnce | internal/platform/database/media_repository.go:262-309 | a client upload holds at most one row at a time and is turned into usage at most once, never again once it is over |
| LedgerRuns.ChargesIff | internal/platform/database/media_repository.go:262-309 | a step charges a client upload if and only if it completes one of its rows in flight whose photo no ready one of the event equals |
| LedgerRuns.RefusalIsTrue | internal/platform/database/media_repository.go:93-132 | a quota refusal names a limit the upload would have passed and the usage it was compared to |
| MediaLedger.ReserveIff | internal/platform/database/media_repository.go:41-74 | an upload is reserved if and only if the event is there and active, used plus reserved bytes plus its size are within the limit given or else the event's, the enforced item limits have room, and its keys are free; what that writes to the counters and the media row, and nothing otherwise |
| MediaLedger.RefusalIs | internal/platform/database/media_repository.go:76-132 | which error a refused upload gets, with its limit and usage, in the order the limits are checked |
| MediaLedger.MarkReadyIff | internal/platform/database/media_repository.go:262-309 | an in-flight upload becomes ready unless a ready photo of its event has its checksum |
| MediaLedger.MarkReadyWrites | internal/platform/database/media_repository.go:262-309 | its row and its event's counters afterwards, column by column, and no other row or event |
| MediaLedger.NothingToComplete | internal/platform/database/media_repository.go:262-309 | without a row in flight to complete the call reports not found and writes nothing |
| MediaLedger.ModeratesStored | internal/platform/database/media_repository.go:211-222 | each stored row among the named ones takes the status and no other row changes; the call succeeds if and only if the names are distinct and all stored |
| MediaLedger.SoftDeletesAll | internal/platform/database/media_repository.go:232-252 | all named rows are deleted if they are distinct and stored, and otherwise nothing changes |
| MediaLedger.EventStatements | internal/retention/repository.go:50-83 | what a purge, and closing, deleting or re-limiting an event, writes to the event's columns and the media rows |
| MediaLedger.NoEventNoStatement | internal/entitlement/repository.go:218-229 | without a row the event's statements do nothing, and a new event starts with every counter at 0 |
| MediaRepositories.MediaRepository.ReserveUpload | internal/platform/database/media_repository.go:41-74 | one conditional update and one insert, nothing on refusal or key clash: the function MediaLedger.ReserveIff is about |
| MediaRepositories.MediaRepository.MarkReady | internal/platform/database/media_repository.go:262-309 | the row becomes ready and its reservation becomes usage, nothing on a duplicate checksum or a missing row |
| MediaRepositories.MediaRepository.DeleteManyUploads | internal/platform/database/media_repository.go:166-191 | all named rows go and each event gives back what its in-flight ones held |
| MediaRepositories.MediaRepository.UpdateStatuses | internal/platform/database/media_repository.go:211-222 | stored rows among the named ones take the status, even when the call reports that some were missing |
| MediaRepositories.MediaRepository.DeleteForEvent | internal/platform/database/media_repository.go:232-252 | all named stored rows become deleted and give their bytes back, or none does |
| UploadService.MediaService.CreateUpload | internal/media/service.go:118-184 | which request gets which answer; with any steps of other requests in between, a run with at most one own reservation, none for a known client upload, a target only for this client upload's row; undisturbed, a new upload is reserved if and only if the event has room, and a call that fails leaves no trace |
| UploadService.MediaService.Complete | internal/media/service.go:194-235 | confirms only a row that was ready, or one in flight of this session whose object has the size and type announced, and writes nothing without such an object; undisturbed, confirms if and only if there is one and no ready photo has its checksum; a duplicate's reservation is given back |
| UploadService.ReserveThenRelease | internal/media/service.go:168-173 | releasing a fresh reservation leaves both tables exactly as they were before it |
| UploadService.UnguardedReleaseDrifts | internal/media/service.go:168-173 | a run of this shape in which the release removes a row completed meanwhile and the counters drift |
| UploadService.UnguardedReleaseChargesTwice | internal/media/service.go:168-173 | after that run the client upload is reserved and charged a second time |
| UploadService.LateReleaseIff | internal/platform/database/media_repository.go:161-191 | after any run of other requests, a release keeps counters and rows in step if and only if none of its rows completed meanwhile |
| UploadService.UniqueMediaIds | internal/media/service.go:656-669 | each id once, uuid.Nil never, in the order of first mention |
| UploadService.CompleteMany | internal/media/service.go:263-291 | refused if and only if the event takes no uploads or the ids are none or over 50; otherwise one answer per distinct id, in order, with any steps of other requests around each item: an item is confirmed only if Complete could confirm it when its turn came, exactly then if undisturbed, and was ready when its item ended, and at the end of an undisturbed batch |
| UploadService.ExpireStale | internal/media/service.go:597-633 | exactly the rows listed as stale whose object is gone are deleted, after any steps of other requests; the ledger is valid afterwards if and only if none of them completed meanwhile |
| UploadService.StaleAreOldest | internal/platform/database/media_repository.go:353-362 | the stale uploads listed are in flight and untouched since the time given, those untouched longest, at most 100 or the number asked for, and none is left out while there is room |
| UploadService.ExpiryDrifts | internal/media/service.go:597-633 | a listed upload that completes before the release is deleted all the same, and the counters drift |
| Gallery.WalkIsExact | internal/media/service.go:762-820 | following the cursor to the end yields, concatenated, exactly the filtered rows in order, each once |
| Gallery.PageStatement | internal/platform/database/media_repository.go:374-404 | a page holds the first rows past the cursor by creation time and id, newest or oldest first, of the statuses and types its filter shows, 24 or up to 100 of them, and leads on if and only if it left some out |
| Gallery.StableRowListedOnce | internal/platform/database/media_repository.go:374-404 | a row shown throughout is listed exactly once while other rows come and go between pages |
| Gallery.ListingResumes | internal/platform/database/media_repository.go:386-398 | the keyset condition of the cursor selects exactly what the listing has after it |
| Gallery.CountIsWalkLength | internal/platform/database/media_repository.go:406-417 | a filter's count is the number of rows its walk yields |
| Catalog.SetRegistry | internal/catalog/registry.go:49-60 | the plans that are not retired and only they, in order of rank, with the same plans behind both views |
| Catalog.UpgradeOptions | internal/entitlement/entitlement.go:143-151 | lists a plan if and only if it is known and of a higher rank, in rank order |
| Grants.ActivateGrantedIff | internal/entitlement/repository.go:154-193 | an activation is granted if and only if source, reference, plan version, event, unused reference and transition are right |
| Grants.ActivateStatement | internal/entitlement/grant_service.go:65-123 | the same on the columns, and what is then written: the grant has the version on sale, its limits, and uploads and storage for its days after the later of activation and the day after the event, never less than before; the grant in force is superseded, the event takes the limits over, and an audit entry says what was replaced |
| Grants.ActivatePushes | internal/entitlement/repository.go:154-214 | a successful activation pushes one grant of the plan asked for, on the terms Grants.ActivateStatement gives it, and moves no other event's stack |
| Grants.RevokePops | internal/entitlement/repository.go:334-387 | revocation succeeds exactly on two grants or more, and then is a pop with the grant below active again |
| Grants.RevokeStatement | internal/entitlement/repository.go:334-387 | a revocation goes through if and only if there is a reason, a grant in force and a superseded one; the rows, limits and audit entry it writes then, and which error it gives otherwise |
| Grants.RevokeUndoesActivate | internal/entitlement/grant_service.go:189-205 | revoking an activation restores plan, expiry and item limits, and the byte limit exactly when the old plan names one, the new one names none, or they agree |
| Grants.RestoresLastPushedIff | internal/entitlement/repository.go:351-363 | for grants dated by their caller, revocation is sure to restore the one pushed last exactly when its date is after the plan it replaced |
| Grants.BackdatedIsSkipped | internal/entitlement/repository.go:351-363 | an activation dated before the plan it replaced is passed over: revoking the plan above it restores the one below it |
| Witnesses.RevokeSkipsExperience | internal/entitlement/grant_service.go:189-205 | Free, a backdated Experience, Signature: revoking Signature leaves the event on Free |
| Grants.RevokePicks | internal/entitlement/repository.go:351-360 | the row picked is a superseded grant of the event that none is newer than |
| Grants.MayRestoreIff | internal/entitlement/repository.go:351-360 | such a row is a superseded grant of the event activated last, and of those created last |
| Grants.Expiry | internal/entitlement/entitlement.go:195-205 | uploads and storage end together, retention days after the later of activation and the day after the event |
| Grants.ProvisionStarts | internal/entitlement/provision.go:26-52 | a new event starts on Free with one grant, and an event whose grant fails is not created |
| Grants.ProvisionStatement | internal/entitlement/provision.go:26-52 | an event is created if and only if the Free plan is on sale and the event is new, with a grant on that plan's terms counted from its own date |
| Grants.NewGrantIsAbove | internal/entitlement/grant_service.go:93-115 | the new grant outranks the current one, keeps at least its expiries, and stores media for the plan's days at least; Grants.ActivateStatement says which expiries it gets |
| Licences.PlansStayInOrder | internal/entitlement/repository.go:410-417 | over any run with increasing activation times every event's grants are one stack, its audit trail leads to the active plan, and LimitMismatch is empty |
| Licences.FirstGrantIsForever | internal/entitlement/grant_service.go:189-192 | an event that has a plan keeps its first grant at the bottom and is never left without one |
| Licences.EventsKeepAPlan | internal/entitlement/grant_service.go:189-192 | over every run, whatever the dates of its activations, an event on a plan is never left without one |
| Licences.OneGrantPerPurchase | internal/entitlement/license.go:109-207 | over any run each purchase's licence is consumed with its one grant and never changes again |
| Licences.PurchaseAppliesIff | internal/entitlement/license.go:149-196 | a first attempt applies if and only if version, event, owner and transition are right and no other purchase paid for the event |
| Licences.PurchaseStatement | internal/entitlement/license.go:109-207 | the same on the columns, and what is then written: the licence consumed by the event, the grant on the terms of the version bought and the event's date, and the change of plan; otherwise why it is refused |
| Licences.TakenIdRefused | internal/entitlement/license.go:122-133 | an id another licence has refuses the purchase |
| Licences.PurchasePushes | internal/entitlement/license.go:170-207 | an applied purchase pushes one grant of the version bought, on the terms Licences.PurchaseStatement gives it, paid by its own licence, and moves no other stack |
| Licences.RevokeUndoesPurchase | internal/entitlement/grant_service.go:189-205 | revoking a purchased plan restores the event as RevokeUndoesActivate does, keeps the licence consumed, and repeating the purchase does not bring the plan back |
| Licences.SecondPurchaseNeverApplies | migrations/000037_event_licenses_and_trial_policy.up.sql:32-34 | after one purchase paid for an event, no other purchase for it is ever applied, at any later point |
| Licences.RepeatIsNoOp | internal/entitlement/license.go:136-147 | a repeated activation changes nothing and succeeds exactly when it repeats the first one |
| Licences.NothingToWithdraw | internal/entitlement/license.go:99-107 | in every reachable state there is no unconsumed licence to withdraw |
| Licences.WithdrawStatement | internal/entitlement/license.go:99-107 | a withdrawal would write that licence alone, and only if it is not consumed, withdrawn or expired |
| EntitlementRepositories.EntitlementRepository.WriteGrant | internal/entitlement/repository.go:197-214 | supersede, insert, copy the limits, audit: all of it or nothing |
| EntitlementRepositories.EntitlementRepository.Activate | internal/entitlement/repository.go:154-193 | every check in order, then the write; any failure leaves all tables alone: the function Grants.ActivateStatement is about |
| EntitlementRepositories.EntitlementRepository.Revoke | internal/entitlement/repository.go:334-387 | both status updates, the limits and the audit row, or nothing |
| EntitlementRepositories.EntitlementRepository.ActivatePurchase | internal/entitlement/license.go:109-207 | insert, reserve, grant and consume in one transaction that rolls back whole: the function Licences.PurchaseStatement is about |
| Backfill.BackfillLegacy | internal/entitlement/grant_service.go:149-187 | terminates for any batch size, handles every initial candidate once although upgraded ones leave the query, and a dry run counts the same set without writing |
| Backfill.BackfillOutcome | internal/entitlement/grant_service.go:143-148 | the report adds up to the initial candidates, upgraded events are on Experience, the others untouched, and a second run lists only those |
| Backfill.ActivateOne | internal/entitlement/grant_service.go:168-183 | which of upgraded, skipped and failed an event comes to, told from the tables before the run |
| Backfill.CandidateIff | internal/entitlement/repository.go:305-318 | the query lists the events past the cursor created before the cutoff that are on no plan or on Free |
| Backfill.VerdictStatement | internal/entitlement/grant_service.go:162-183 | an event is upgraded if and only if its transaction works, Experience is on sale and dearer, and no earlier run granted it; skipped if one did |
| Backfill.UpgradeStatement | internal/entitlement/grant_service.go:162-183 | the grant an upgraded event gets, on the terms of Experience and under its own reference |
| Pricing.UpgradesTelescope | internal/billing/pricing.go:93-209 | all the purchases of one event, each as quoted when it was bought, cost the last tier's value plus all that was lost on the way, less the credit a first upgrade had for a tier nobody had bought |
| Pricing.NothingLostIff | internal/billing/pricing.go:93-209 | nothing is lost if and only if every purchase after the first is an upgrade to a tier worth no less, or there was nothing to lose: one sold while the event's plan was not on sale loses all the value before it |
| Pricing.OneContext | internal/billing/pricing.go:146-182 | every purchase of an event is priced in the context its host had at the last one that was not an upgrade, and records its own tier's value there |
| Pricing.PromotionsBounded | internal/billing/pricing.go:72-81 | any sequence of promotions keeps base, credit and final = base - discount, and charges the exact amount rounded up by less than one unit each |
| Pricing.ExactIsProduct | internal/billing/pricing.go:72-81 | that exact amount is the amount times the product of what each promotion leaves of one unit |
| Pricing.PromotionsRefused | internal/billing/pricing.go:73-75 | a sequence is refused if and only if some percentage is outside 0..100 |
| Pricing.PromotionStatement | internal/billing/pricing.go:72-81 | one promotion takes a truncated int64 percentage off the charge and adds it to the discount, and changes nothing else |
| Pricing.QuotesAreSound | internal/billing/pricing.go:34-42 | every quote has final = base - discount, discount at least the credit, and 0 <= final <= base |
| Pricing.QuotedIff | internal/billing/pricing.go:93-140 | an order is quoted if and only if it is an upward move to a plan on sale, by the owner, with a version and a price, and with the held tier's own where no purchase funded it; a first purchase gets no credit |
| Pricing.QuoteStatement | internal/billing/pricing.go:93-209 | every quote on the columns: loyalty prices exactly for a host with a paid purchase of more than nothing on another event, the credit of the sale settled last unless it was returned, the list price of a tier that was given; and which error an order gets otherwise |
| Pricing.Draft.QuoteEventPurchase | internal/billing/pricing.go:93-140 | the checks in order and which of the two quotes is filled in |
| Pricing.Draft.QuoteUpgrade | internal/billing/pricing.go:166-209 | context and credit come from the purchase that funded the held tier, or from its list price |
| Purchases.LatestIsLast | internal/billing/gorm_repository.go:162-176 | the purchase that funds an upgrade is the one settled last |
| Billing.PurchasesStayConsistent | internal/billing/service.go:333-676 | for every order, delay and repetition of webhooks, reconciler runs and failing calls: settled statuses are never left, settled amounts written once and equal to the quote, refunds within the total, licences kept |
| Billing.AppliedMeansOneGrant | internal/billing/service.go:503-547 | a purchase marked as applied has its licence and exactly one grant, on its own event |
| Billing.SecondPaidPurchaseStaysOwed | internal/billing/service.go:690-713 | once one purchase of an event is applied, no retry ever applies another of that event |
| Billing.SettlementAppliesIff | internal/billing/service.go:437-547 | a first payment notification is recorded in any case and applied if and only if the plans allow it; otherwise the purchase is owed and its key may be handled again |
| Billing.PaymentStatement | internal/billing/service.go:437-547 | a first notification with the price, amount and currencies quoted, non-negative amounts and a transaction of its own records its subtotal, tax, total, currency and transaction in any case; licence and grant come with it, dated at the payment, if and only if the plans allow |
| Billing.DeliveryStatement | internal/billing/service.go:333-435 | for every notification: handled once per key unless it failed, what it makes of its purchase's row by kind and status, the flag it leaves, and that no other purchase changes |
| Billing.ClosingFrees | internal/billing/service.go:549-563 | a failed or canceled payment closes an open purchase and frees its event for another |
| Billing.ReversalWithdraws | internal/billing/service.go:618-629 | a reversal withdraws the purchase's own licence and no other, if it is unconsumed, and then flags nothing |
| Billing.RepeatStatement | internal/billing/service.go:503-547 | an attempt after the licence was issued succeeds if and only if it is for the same plan and event, and only sets the mark |
| Billing.RetryStatement | internal/billing/service.go:690-713 | a retry touches only a settled purchase without the mark, and applies it like its first notification, dated when it settled |
| Billing.CheckoutStatement | internal/billing/gorm_repository.go:62-80 | a checkout is written to the row it names unless another purchase of its event is open |
| Billing.OpenStatement | migrations/000035_billing_hardening.up.sql:20-22 | a purchase opens if and only if its event has a row and no open purchase |
| Witnesses.SecondPurchaseRun | internal/billing/service.go:437-647 | from empty tables: the first purchase is applied, a second one of the event is quoted as an upgrade, opened with that quote, paid, and owed, and its refund flags the event |
| Witnesses.TaxedRun | internal/billing/service.go:437-611 | from empty tables: 100 quoted and 120 paid with its tax; a refund of 100 is a partial one, and of 120 a full one |
| Witnesses.SecondIsQuoted | internal/billing/pricing.go:93-140 | with the first purchase on the table, its upgrade is quoted at base 200, credit and discount 100, final 100 in the first one's context: what that second purchase is opened with |
| Witnesses.FirstIsQuoted | internal/billing/pricing.go:93-160 | on an empty table the first purchase of a host is quoted at base and final 100 in the first context: what purchase 1 is opened with |
| Witnesses.ThirdIsQuoted | internal/billing/pricing.go:93-160 | once a host has paid for one event, the first purchase on another is quoted in the returning context: what purchase 3 is opened with |
| Billing.ReversalsOnlyFlag | internal/billing/service.go:618-676 | which flag each reversal leaves on the event, and that it touches no licence, plan or grant |
| Billing.FlagsUnconsumedIff | internal/billing/service.go:565-647 | a clean full refund or dispute flags an event on which no grant was ever bought with the purchase if and only if the purchase has no licence |
| Billing.DisputeUndoneIff | internal/billing/service.go:649-676 | a dispute and its reversal leave the purchase as it was if and only if it was settled and the cap was not met, and the flag if and only if there was none |
| Witnesses.DisputedRefundRun | internal/billing/service.go:649-676 | from empty tables: a partial refund of 40, disputed and decided for the host, ends as settled in full |
| Billing.LateCheckoutReopens | internal/billing/gorm_repository.go:62-80 | recording a checkout keeps the purchase consistent if and only if its payment has not settled or another purchase of its event is open |
| Billing.OneOpenPerEvent | migrations/000035_billing_hardening.up.sql:20-22 | no run of any steps, a late checkout among them, opens a second purchase on an event |
| Witnesses.LateCheckoutRun | internal/billing/gorm_repository.go:62-80 | from empty tables: an applied purchase whose checkout is open again, and the same write refused once the next purchase is open |
| BillingServices.BillingService.HandleProviderEvent | internal/billing/service.go:333-435 | claim the dedupe key, route, close the record; a key is handled once unless it failed: the function Billing.DeliveryStatement is about |
| BillingServices.BillingService.HandleReversal | internal/billing/service.go:571-647 | capped cumulative refund, status, licence and flag in that order, with what a failure at each call leaves |
| BillingServices.BillingService.InsertProviderEvent | internal/billing/gorm_repository.go:218-253 | duplicate if and only if the key was seen and did not fail |
| BillingServices.BillingService.ReconcileUnapplied | internal/billing/service.go:690-713 | every listed purchase is counted once, as applied or as reported; reported are exactly those that are not the first of their event that would go through, told from the state before; the others are untouched, the state stays consistent, and where all fit on the list what is owed afterwards is what was reported |
| Reconciliation.OwedRows | internal/billing/gorm_repository.go:205-216 | the list is the settled, unapplied purchases, each once, those settled longest ago, and leaves one out only when it is full |
| Reconciliation.ListStatement | internal/billing/gorm_repository.go:205-216 | the same on the columns: status settled, no mark, in order of settlement, at most 50 or the number asked for |
| Reconciliation.RetriedIff | internal/billing/gorm_repository.go:205-216 | a purchase that was paid and not applied is on the list if and only if its status is settled and fewer than the limit were settled before it and are owed |
| Reconciliation.ReconcileOutcome | internal/billing/service.go:690-713 | the i-th retry goes through if and only if, in the state before the run, that purchase is the first of its event on the list whose retry would |
| Reconciliation.AppliedIff | internal/billing/service.go:690-713 | a run in which no mark fails applies a purchase that was paid and not applied if and only if it is settled, has room on the list, would go through, and no older one of its event's would |
| Reconciliation.ApplicableIff | internal/entitlement/license.go:149-196 | what going through asks of the plans, on the columns |
| Reconciliation.NeverReached | internal/billing/service.go:690-713 | a full batch of owed second purchases keeps every later purchase off the list after every run |
| Reconciliation.PartialRefundForgets | internal/billing/gorm_repository.go:205-216 | a partial refund of an owed purchase leaves it paid, on no list, and with a payment notification that does nothing |
| Reconciliation.ReversedIsForgotten | internal/billing/service.go:437-676 | a purchase reversed before it was applied is never applied by any run in which no dispute of it is decided for the host |
| Witnesses.NeverRetriedRun | internal/billing/service.go:690-713 | from empty tables: a purchase paid while staff had its event on a higher plan would be applied once they took that back, and with lists of one is never retried while an older second purchase is owed |
| Witnesses.PartialRefundRun | internal/billing/gorm_repository.go:205-216 | from empty tables: a purchase paid in the same way and refunded 40 of 100 stays paid and would be applied, but is on no list of any length after any run without a won dispute |
| Refunds.RefundsCountOnce | internal/billing/service.go:354-384 | once the payment settled, in every run whose reversals of the purchase are refunds, in any order with any repetition and whatever else happens in between, it returns the sum over distinct dedupe keys, capped at the total |
| Refunds.LateRefundsAddUp | internal/billing/service.go:565-611 | the same from any start: what is returned is the sum over the keys first delivered after the payment settled, capped at the total |
| Refunds.EarlyRefundsLostIff | internal/billing/service.go:575-586 | that is what all the refunds name if and only if none came before the payment or the others return the total |
| Witnesses.EarlyRefundRun | internal/billing/service.go:575-586 | from empty tables: a payment and a refund of 40 return 40 in that order, and nothing in the other, however often the refund is sent again |
| Refunds.RefundsTouchNoBooks | internal/billing/service.go:565-570 | refunds of any purchases, however many, touch no plan, licence or grant |
| Refunds.RefundOrderIrrelevant | internal/billing/service.go:571-611 | once the payment settled, two deliveries of the same refunds end with the same amount |
| Refunds.RetryCountsOnceIff | internal/billing/service.go:605-624 | a refund retried after a failing delivery is counted once if and only if the licence call worked, the record could not be marked failed, or the rest was returned anyway |
| Refunds.RetriesAddUp | internal/billing/service.go:605-624 | a refund whose licence call fails n times is returned n + 1 times, up to the total; once if and only if n is 0 or once is everything |
| Witnesses.RetriedRefundRun | internal/billing/service.go:605-624 | from empty tables: a refund of 40 out of 100 that fails once returns 80 |
| PaddleMapper.AmountRoundTrip | internal/platform/paddle/mapper.go:154-170 | reading back an amount in decimal notation gives the amount if and only if an int64 holds it |
| PaddleMapper.ParseMinorUnits | internal/platform/paddle/mapper.go:157-170 | the number its digits spell, negated behind a minus sign, modulo 2^64 |
| PaddleMapper.SpacedAmount | internal/platform/paddle/mapper.go:157-159 | white space around an amount does not change it |
| PaddleMapper.DecidedRefundsCountOnce | internal/platform/paddle/mapper.go:117-152 | every adjustment announced at least once with a status other than pending_approval, a rejected one too, is returned once; pending notices return nothing and never use up its key |
| PaddleMapper.RejectedIsReturned | internal/platform/paddle/mapper.go:137-148 | a single notice of a rejected refund returns its amount, up to the total |
| PaddleMapper.AdjustmentStatement | internal/platform/paddle/mapper.go:117-152 | which adjustments are refunds, disputes and won disputes, under which key and with which amount; everything else is ignored |
| PaddleMapper.NoticeStatement | internal/platform/paddle/mapper.go:117-152 | what a notice of each action makes of its purchase: chargebacks and their warnings dispute it, a reversed one gives the money back |
| Archive.ArchiveService.Run | internal/archive/service.go:58-104 | at every step of the run, and so wherever it stops and after any number of restarts, every live original is in hot storage or in a verified copy with the same bytes; a run is without failures if and only if it is not cancelled and every call for the rows it lists goes well, and then ends with every pending deletion it listed finished and every due row it listed archived, and with no row signable without its object if the pending ones fit the list |
| Archive.DueStatement | internal/platform/database/archive_repository.go:17-30 | a run lists the ready rows uploaded by the cutoff that have no verified copy, those uploaded first, 50 or the number asked for |
| Archive.PendingStatement | internal/platform/database/archive_repository.go:32-45 | and first those with a verified copy whose object is not recorded as deleted |
| Archive.ArchiveService.ArchiveDue | internal/archive/service.go:92-99 | a row that keeps failing stops no other: each one whose own calls go well is archived |
| Archive.ArchiveService.ArchiveOne | internal/archive/service.go:106-136 | the original goes only after its copy was read back with the same hash and recorded |
| Archive.ArchiveService.DeleteSource | internal/archive/service.go:138-143 | what the two calls leave for each way they can end, with the state in between on the trace; archived and marked if both went well |
| Archive.DeletionStatement | internal/archive/service.go:138-143 | that outcome, store by store and row by row |
| Archive.RemovalOpensGap | internal/archive/service.go:138-143 | removing the object makes the row signable without an object if and only if it was signable, and no other row |
| Archive.GapIff | internal/platform/database/archive_repository.go:56-72 | after deleteSource, failed or not, a listing can sign the missing object's key if and only if the row was signable, the object is gone, and not both calls took effect with the first one heard of |
| Archive.DanglingIsPending | internal/platform/database/archive_repository.go:32-45 | a row signable without its object is one the next run lists for deletion |
| Archive.SignedThoughGone | internal/archive/service.go:138-143 | a safe store with one archived photo in which the gap opens, and stays when the mark fails |
| Archive.HotDeleted | internal/platform/database/archive_repository.go:32-45 | deleting the hot object of a row with a verified copy keeps every live original recoverable |
| Retention.RetentionService.Purge | internal/retention/retention.go:154-179 | marked purged only with no verified archive copy and no object under the prefix; a purge reported as failed leaves the rows alone, unless its last transaction took effect unheard, and then is complete |
| Retention.PurgeLeaves | internal/retention/repository.go:50-83 | what a purge leaves of every object, copy, media row, export and event |
| Retention.SameResult | internal/retention/retention.go:154-179 | wherever a purge stopped, purging again comes to the state an unbroken purge would have |
| Retention.RetentionService.Run | internal/retention/retention.go:124-152 | every due event is purged and empty, or failed and still due; one reported as failed is purged only when the reply to its last transaction was lost; an event that is not due keeps its rows, copies and objects; a dry run changes nothing |
| Retention.ListedOldest | internal/retention/repository.go:15-28 | the events listed have an active grant that ended by the cutoff and are not purged; they are the ones that ended first, and none is left out while there is room |
| Retention.ListedOnce | internal/retention/repository.go:15-28 | no event is listed twice among the candidates |
| MediaJobs.ClaimsAreBounded | internal/mediajob/worker.go:87-164 | with any number of workers no job is held twice, none is claimed more than MaxAttempts times, a retired one waited backoff * (2^(MaxAttempts-1) - 1) in all, and claims never outnumber the attempts brought |
| MediaJobs.ClaimsAreAttempts | internal/mediajob/repository.go:30-45 | over any run the claims are exactly the attempts added to the rows |
| MediaJobs.RetiredIffAttemptsUsed | internal/mediajob/worker.go:139-164 | over any run a job ends retired if and only if it was claimed MaxAttempts times, is not running and was not done, and then waited backoff * (2^(MaxAttempts-1) - 1); one of an unknown kind is never done |
| MediaJobs.UnknownKindRetiredIff | internal/mediajob/worker.go:119-128 | running a claimed job of an unknown kind retires it if and only if that was its last attempt, and otherwise queues it again after the delay |
| MediaJobs.UnknownKindIsRetried | internal/mediajob/worker.go:119-128 | from an empty queue with the default settings: the first claim leaves it queued for 30 seconds later |
| MediaJobs.BatchIsOldest | internal/mediajob/repository.go:24-26 | a batch takes queued jobs whose time has come, those that waited longest, and leaves one only when it is full |
| MediaJobs.WaitsItsTurn | internal/mediajob/repository.go:24-26 | no run in which every claim comes before a queued job's time touches its row |
| MediaJobs.ClaimStatement | internal/mediajob/repository.go:30-45 | a claim writes the rows of its batch and no others: running, one attempt more |
| MediaJobs.FinishStatement | internal/mediajob/worker.go:108-164 | what running a job writes to its row: done, retired with its last attempt, or queued again after the delay, with the cause cut to 500 |
| MediaJobs.DelayStatement | internal/mediajob/worker.go:151-158 | the first delay is the backoff and each one after it twice the one before |
| MediaJobs.DefaultsStatement | internal/mediajob/worker.go:27-41 | two jobs at a time, five seconds idle, five attempts and 30 seconds of backoff where nothing else is set |
| MediaJobs.NothingLeft | internal/mediajob/worker.go:139-150 | with no attempts left and nothing running every job is done or retired |
| MediaJobs.JobRepository.ClaimBatch | internal/mediajob/repository.go:18-51 | the copies handed out say what was written to the rows |
| MediaJobs.DrainOnce | internal/mediajob/worker.go:87-106 | one batch claimed and every job of it run |
| Realtime.Topic.Subscribe | internal/realtime/hub.go:74-110 | a subscription exists if and only if the role is valid, and its stream starts at the log's end |
| Realtime.Topic.Receive | internal/realtime/hub.go:288-290 | the next message in order, with nothing lost between channel and client |
| Realtime.Topic.Shutdown | internal/realtime/hub.go:261-276 | every channel is closed with what it buffered |
| Realtime.Topic.Deliver | internal/realtime/hub.go:220-247 | each subscriber the message is for gets it or is dropped for good, and no one else's stream depends on it |
| Realtime.Topic.StreamIsPrefix | internal/realtime/hub.go:177-247 | what a client received and has buffered is a gap-free, in-order prefix of what its audience was sent since it joined, all of it while subscribed, and never more than its buffer |
| Realtime.HostOnly | internal/realtime/realtime.go:55-66 | a valid mask stays from public streams exactly when it names the host alone |
| Realtime.AudienceStatement | internal/realtime/realtime.go:55-66 | the valid masks are host, public and both, and whom each reaches |
| Realtime.VisibleAt | internal/realtime/hub.go:220-237 | the messages a role sees are those addressed to it, each once and in order |

## Left out

- HTTP handlers, routing, auth, configuration, command line tools, notifications to open screens: plumbing.
- Webhook signatures, JSON decoding, and finding a purchase by its provider transaction: a delivery
  carries the purchase it was resolved to.
- CreateCheckout: purchases appear as pending rows and their checkout as a later write.
- The realtime hub's locking across topics, its bus and message encoding: one topic's steps are atomic.
- Image and video decoding, thumbnails, transition cues, exports, customization, insights, guests.
- Free-trial limits and the trial columns `Provision` and `ActivatePurchase` also write.
- Licences issued for anything but a purchase: nothing in the repository creates one.
- int64 overflow of counters, amounts and delays, apart from parsed amounts and promotions, where
  wrap-around is modelled.
- Trimming of source references and reasons; case folding beyond ASCII; cursor text encoding.
- UploadService.CompleteMany: completes its ids one after the other, where the source uses goroutines;
  the ids are distinct rows, and other requests' steps may stand between any two repository calls.
- Whether storage still has the object behind an upload that completes while its expiry is under way: a
  completion is a step of another request.
- The order of purchases settled at the same instant, which the source leaves open: the model lists
  them by id.
- MediaJobs.DrainOnce: runs a batch in order, where the source runs it at once; each job writes its own row.
- Archive.ArchiveService.Run: pending deletions keep table order, not the order of verification; nothing
  stated depends on it. Concurrent archive runs and a purge in the middle of one are not modelled.
- Backfill.BackfillLegacy: no other activation runs meanwhile.
- Pricing.UpgradesTelescope: takes the quotes of the chain as quoted in settlement order, every sale
  still paid, without a promotion, when the next one is quoted.
- Reconciliation.AppliedIff: a purchase reversed between the reconciler's query and its retry, which
  works on the row it read, is not modelled: the retries of one run follow its query at once.
- UploadService.MediaService.CreateUpload: takes the file name as given, where the source keeps its last
  path element. The check for a photo already there compares the checksum as given while rows hold it in
  lower case, as in the source; the unique index decides.
